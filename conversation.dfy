/**
 * The order conversation of bot.py: the four `OrderState`s plus "no
 * conversation", the handlers that `_setup_handlers` wires to them, and the
 * step the conversation handler takes for one incoming update of one user.
 *
 * Every handler is a function from the user's draft (`context.user_data`)
 * and the event to the transition it returns, the new draft and the replies
 * it sends. Replies are abstract messages; the catalogs of departments and
 * priorities are abstract maps from id to label.
 */
module Conversation {

  import opened Wrappers
  import opened Text

  // ---------------------------------------------------------------------
  // States, drafts, events and outputs
  // ---------------------------------------------------------------------

  /** `OrderState` (bot.py:41-46). "No conversation" is `None` of `Option<OrderState>`. */
  datatype OrderState = SelectingDepartment | EnteringProduct | EnteringQuantity | SelectingPriority

  /** A catalog entry chosen with a button: its id and its label. */
  datatype Choice = Choice(id: string, title: string)

  /**
   * `context.user_data`: the only keys the handlers ever write are
   * `department`, `product`, `quantity` and `priority`; an absent key is `None`.
   */
  datatype Draft = Draft(
    department: Option<Choice>,
    product: Option<string>,
    quantity: Option<string>,
    priority: Option<Choice>)

  const EmptyDraft := Draft(None, None, None, None)

  /** `DEPARTMENTS` / `PRIORITIES`: id to label. */
  type Catalog = map<string, string>

  /** The sender of an update. */
  datatype User = User(id: int, fullName: string, username: Option<string>)

  /**
   * One incoming update, as the handlers' filters classify it: the three
   * commands the conversation knows, any other command (`/start`,
   * `/reload_users`, ...), a text message that is not a command, and a
   * button press with its callback payload.
   */
  datatype Event =
    | OrderCommand
    | CancelCommand
    | HelpCommand
    | OtherCommand(name: string)
    | TextMessage(text: string)
    | CallbackQuery(data: string)

  /** The replies the handlers send, by meaning rather than wording. */
  datatype Message =
    | AccessDenied
    | SelectDepartment(buttons: set<string>)
    | DepartmentChosen(departmentName: string)
    | EnterQuantity
    | SelectPriority(buttons: set<string>)
    | OrderSentSummary(department: string, product: string, quantity: string, priority: string)
    | OrderCancelled
    | AlreadyInProgress
    | CancelNotAvailable
    | HelpCommands

  /** The fields `ORDER_TEMPLATE` is filled with (bot.py:345-353). */
  datatype OrderMessage = OrderMessage(
    userName: string,
    username: string,
    department: string,
    product: string,
    quantity: string,
    priority: string,
    date: string)

  /** What a handler does towards the outside, in order. */
  datatype Output =
    | AnswerQuery             // `await query.answer()`
    | Reply(m: Message)       // `reply_text`
    | Edit(m: Message)        // `edit_message_text`
    | RelayToAdmins(order: OrderMessage)  // `_send_order_to_admins`

  /** What a handler returns: an `OrderState`, `ConversationHandler.END`, or `None` (stay). */
  datatype Transition = Goto(next: OrderState) | End | Stay

  /** A handler's effect: it returns a transition, or it raises (a `KeyError`). */
  datatype HandlerResult =
    | Returned(transition: Transition, draft: Draft, outputs: seq<Output>)
    | Raised(draft: Draft, outputs: seq<Output>)

  /** The inputs a step reads besides the user's own state. */
  datatype Env = Env(allowed: set<int>, departments: Catalog, priorities: Catalog, now: string)

  // ---------------------------------------------------------------------
  // Callback payloads: f"{kind}_{id}" and query.data.split('_')[1]
  // ---------------------------------------------------------------------

  const DepartmentKind := "department"
  const PriorityKind := "priority"

  /** `f"{kind}_{id}"` (bot.py:252, bot.py:308). */
  function EncodePayload(kind: string, id: string): (data: string)
    ensures kind + "_" <= data
  {
    kind + "_" + id
  }

  /** The callback pattern `"^{kind}_"` (bot.py:146, bot.py:164). */
  predicate MatchesKind(kind: string, data: string)
  {
    kind + "_" <= data
  }

  /** `query.data.split('_')[1]`, for a payload the handler's pattern accepted. */
  function PayloadId(kind: string, data: string): (id: string)
    requires '_' !in kind && MatchesKind(kind, data)
    ensures id <= data[|kind| + 1..] && '_' !in id
    ensures |id| < |data| - |kind| - 1 ==> data[|kind| + 1 + |id|] == '_'
  {
    var rest := data[|kind| + 1..];
    assert data == kind + ['_'] + rest;
    SplitAtFirstSep(kind, '_', rest);
    SplitFirst(rest, '_');
    Split(data, '_')[1]
  }

  /** Decoding a built payload returns the id it was built from, when the id holds no `_`. */
  lemma PayloadRoundTrip(kind: string, id: string)
    requires '_' !in kind && '_' !in id
    ensures MatchesKind(kind, EncodePayload(kind, id))
    ensures PayloadId(kind, EncodePayload(kind, id)) == id
  {
    var data := EncodePayload(kind, id);
    assert data == kind + ['_'] + id;
    SplitAtFirstSep(kind, '_', id);
    SplitWithoutSep(id, '_');
  }

  /** An id holding `_` is cut at its first `_`: only the part before it comes back. */
  lemma PayloadIdTruncates(kind: string, head: string, tail: string)
    requires '_' !in kind && '_' !in head
    ensures PayloadId(kind, EncodePayload(kind, head + "_" + tail)) == head
  {
    var data := EncodePayload(kind, head + "_" + tail);
    assert data == kind + ['_'] + (head + ['_'] + tail);
    SplitAtFirstSep(kind, '_', head + ['_'] + tail);
    SplitAtFirstSep(head, '_', tail);
  }

  /** The payloads of the buttons of a menu, one per catalog entry. */
  function Buttons(kind: string, catalog: Catalog): set<string>
  {
    set id | id in catalog :: EncodePayload(kind, id)
  }

  /** Every button of a menu is accepted by its pattern, and decodes to its own catalog id. */
  lemma ButtonsDecode(kind: string, catalog: Catalog, data: string)
    requires '_' !in kind
    requires forall id :: id in catalog ==> '_' !in id
    requires data in Buttons(kind, catalog)
    ensures MatchesKind(kind, data) && PayloadId(kind, data) in catalog
  {
    var id :| id in catalog && data == EncodePayload(kind, id);
    PayloadRoundTrip(kind, id);
  }

  // ---------------------------------------------------------------------
  // The handlers
  // ---------------------------------------------------------------------

  /** `order` (bot.py:237-260): the entry point, gated by `is_allowed`. */
  function Order(user: User, draft: Draft, env: Env): HandlerResult
  {
    if user.id !in env.allowed then
      Returned(End, draft, [Reply(AccessDenied)])
    else
      Returned(Goto(SelectingDepartment), draft, [Reply(SelectDepartment(Buttons(DepartmentKind, env.departments)))])
  }

  /**
   * `department_callback` (bot.py:262-284): gated by `is_allowed` again; an
   * id missing from `DEPARTMENTS` raises `KeyError` before the draft is written.
   */
  function DepartmentCallback(user: User, draft: Draft, data: string, env: Env): HandlerResult
    requires MatchesKind(DepartmentKind, data)
  {
    if user.id !in env.allowed then
      Returned(End, draft, [AnswerQuery, Edit(AccessDenied)])
    else
      var deptId := PayloadId(DepartmentKind, data);
      if deptId !in env.departments then
        Raised(draft, [AnswerQuery])
      else
        var name := env.departments[deptId];
        Returned(Goto(EnteringProduct), draft.(department := Some(Choice(deptId, name))),
                 [AnswerQuery, Edit(DepartmentChosen(name))])
  }

  /** `product_callback` (bot.py:286-295): stores the text as it came. */
  function ProductCallback(draft: Draft, text: string): HandlerResult
  {
    Returned(Goto(EnteringQuantity), draft.(product := Some(text)), [Reply(EnterQuantity)])
  }

  /** `quantity_callback` (bot.py:297-316): stores the text and offers the priorities. */
  function QuantityCallback(draft: Draft, text: string, env: Env): HandlerResult
  {
    Returned(Goto(SelectingPriority), draft.(quantity := Some(text)),
             [Reply(SelectPriority(Buttons(PriorityKind, env.priorities)))])
  }

  /** `user.username or "не указан"`: an absent or empty username is replaced. */
  function UsernameOrPlaceholder(user: User): string
  {
    if user.username.Some? && user.username.value != "" then user.username.value else "не указан"
  }

  /**
   * `priority_callback` (bot.py:318-357): records the priority, builds the
   * order from the draft, relays it to the admins and ends the conversation.
   * An unknown priority id raises before the draft is written; a draft
   * without department, product or quantity raises after the priority is
   * written.
   */
  function PriorityCallback(user: User, draft: Draft, data: string, env: Env): HandlerResult
    requires MatchesKind(PriorityKind, data)
  {
    var prioId := PayloadId(PriorityKind, data);
    if prioId !in env.priorities then
      Raised(draft, [AnswerQuery])
    else
      var prioText := env.priorities[prioId];
      var written := draft.(priority := Some(Choice(prioId, prioText)));
      if written.department.None? || written.product.None? || written.quantity.None? then
        Raised(written, [AnswerQuery])
      else
        var dept, product, quantity := written.department.value.title, written.product.value, written.quantity.value;
        var order := OrderMessage(user.fullName, UsernameOrPlaceholder(user), dept, product, quantity, prioText, env.now);
        Returned(End, written,
                 [AnswerQuery, RelayToAdmins(order), Edit(OrderSentSummary(dept, product, quantity, prioText))])
  }

  /** `cancel_order` (bot.py:376-383). */
  function CancelOrder(draft: Draft): HandlerResult
  {
    Returned(End, draft, [Reply(OrderCancelled)])
  }

  /** `order_in_progress` (bot.py:385-393): returns `None`, so the state stays. */
  function OrderInProgress(draft: Draft): HandlerResult
  {
    Returned(Stay, draft, [Reply(AlreadyInProgress)])
  }

  // ---------------------------------------------------------------------
  // One step of the conversation handler
  // ---------------------------------------------------------------------

  /** The user's conversation and draft after one update, and what was sent. */
  datatype StepResult = StepResult(conv: Option<OrderState>, draft: Draft, outputs: seq<Output>, raised: bool)

  /**
   * How the conversation handler applies a handler's result: `END` leaves
   * the conversation, `None` keeps the state, and an exception leaves the
   * state as it was.
   */
  function Apply(conv: Option<OrderState>, r: HandlerResult): StepResult
  {
    match r
    case Raised(d, outs) => StepResult(conv, d, outs, true)
    case Returned(t, d, outs) =>
      match t
      case Goto(s) => StepResult(Some(s), d, outs, false)
      case End => StepResult(None, d, outs, false)
      case Stay => StepResult(conv, d, outs, false)
  }

  /** An update nobody handles: nothing changes and nothing is sent. */
  function Ignored(conv: Option<OrderState>, draft: Draft): StepResult
  {
    StepResult(conv, draft, [], false)
  }

  /**
   * The dispatch wired in `_setup_handlers` (bot.py:140-186) for one update of
   * a user in conversation state `conv`:
   * - `/help` is caught by the top-level help handler, registered before the
   *   conversation, inside a conversation as well as outside it;
   * - other commands than `/order`, `/cancel` and `/help` never reach the
   *   conversation's handlers;
   * - outside a conversation only `/order` enters it, and `/cancel` falls
   *   through to `cancel_not_available`;
   * - inside, the current state's handler is tried first, then the fallbacks
   *   `/cancel` and `/order`; an update matching neither is ignored.
   */
  function Step(conv: Option<OrderState>, draft: Draft, user: User, event: Event, env: Env): StepResult
  {
    match event
    case HelpCommand =>
      StepResult(conv, draft, [Reply(if user.id in env.allowed then HelpCommands else AccessDenied)], false)
    case OtherCommand(_) => Ignored(conv, draft)
    case OrderCommand =>
      if conv.None? then Apply(conv, Order(user, draft, env)) else Apply(conv, OrderInProgress(draft))
    case CancelCommand =>
      if conv.None? then StepResult(None, draft, [Reply(CancelNotAvailable)], false)
      else Apply(conv, CancelOrder(draft))
    case TextMessage(text) =>
      if conv == Some(EnteringProduct) then Apply(conv, ProductCallback(draft, text))
      else if conv == Some(EnteringQuantity) then Apply(conv, QuantityCallback(draft, text, env))
      else Ignored(conv, draft)
    case CallbackQuery(data) =>
      if conv == Some(SelectingDepartment) && MatchesKind(DepartmentKind, data) then
        Apply(conv, DepartmentCallback(user, draft, data, env))
      else if conv == Some(SelectingPriority) && MatchesKind(PriorityKind, data) then
        Apply(conv, PriorityCallback(user, draft, data, env))
      else Ignored(conv, draft)
  }

  // ---------------------------------------------------------------------
  // Properties of the step
  // ---------------------------------------------------------------------

  /** `/order` outside a conversation: denied users stay out, allowed users choose a department. */
  lemma OrderEntry(draft: Draft, user: User, env: Env)
    ensures var r := Step(None, draft, user, OrderCommand, env);
      && r.draft == draft && !r.raised
      && (user.id !in env.allowed ==> r.conv == None && r.outputs == [Reply(AccessDenied)])
      && (user.id in env.allowed ==>
            r.conv == Some(SelectingDepartment)
            && r.outputs == [Reply(SelectDepartment(Buttons(DepartmentKind, env.departments)))])
  {
  }

  /**
   * A department button: a denied user's conversation ends; an allowed user's
   * known department is recorded and the product is asked for.
   */
  lemma DepartmentSelection(draft: Draft, user: User, id: string, env: Env)
    requires '_' !in id
    ensures var r := Step(Some(SelectingDepartment), draft, user, CallbackQuery(EncodePayload(DepartmentKind, id)), env);
      && (user.id !in env.allowed ==> r.conv == None && r.draft == draft && !r.raised)
      && (user.id in env.allowed && id in env.departments ==>
            r.conv == Some(EnteringProduct) && !r.raised
            && r.draft == draft.(department := Some(Choice(id, env.departments[id]))))
      && (user.id in env.allowed && id !in env.departments ==>
            r.conv == Some(SelectingDepartment) && r.draft == draft && r.raised)
  {
    PayloadRoundTrip(DepartmentKind, id);
  }

  /** The product text and then the quantity text are stored as they came, in this order. */
  lemma TextSteps(draft: Draft, user: User, text: string, env: Env)
    ensures var r := Step(Some(EnteringProduct), draft, user, TextMessage(text), env);
      r.conv == Some(EnteringQuantity) && r.draft == draft.(product := Some(text)) && !r.raised
    ensures var r := Step(Some(EnteringQuantity), draft, user, TextMessage(text), env);
      r.conv == Some(SelectingPriority) && r.draft == draft.(quantity := Some(text)) && !r.raised
  {
  }

  /** Inside a conversation `/order` and `/help` keep state and draft, and `/cancel` ends it. */
  lemma InConversationCommands(s: OrderState, draft: Draft, user: User, env: Env)
    ensures var r := Step(Some(s), draft, user, OrderCommand, env);
      r.conv == Some(s) && r.draft == draft && r.outputs == [Reply(AlreadyInProgress)]
    ensures var r := Step(Some(s), draft, user, HelpCommand, env);
      r.conv == Some(s) && r.draft == draft
    ensures var r := Step(Some(s), draft, user, CancelCommand, env);
      r.conv == None && r.draft == draft && r.outputs == [Reply(OrderCancelled)]
  {
  }

  /** Outside a conversation `/cancel` only says that there is nothing to cancel. */
  lemma CancelOutsideConversation(draft: Draft, user: User, env: Env)
    ensures Step(None, draft, user, CancelCommand, env) == StepResult(None, draft, [Reply(CancelNotAvailable)], false)
  {
  }

  /** Outside a conversation nothing but `/order` can start one, and only `/order` and `/help` answer. */
  lemma OnlyOrderEnters(draft: Draft, user: User, event: Event, env: Env)
    requires event != OrderCommand
    ensures var r := Step(None, draft, user, event, env);
      r.conv == None && r.draft == draft && !r.raised
  {
  }

  /** Nothing the handlers do removes a field from the draft: it is never cleared. */
  predicate KeepsFields(before: Draft, after: Draft)
  {
    && (before.department.Some? ==> after.department.Some?)
    && (before.product.Some? ==> after.product.Some?)
    && (before.quantity.Some? ==> after.quantity.Some?)
    && (before.priority.Some? ==> after.priority.Some?)
  }

  /**
   * The fields a state can rely on: each state is reached only through the
   * handlers that record the fields before it.
   */
  predicate Consistent(conv: Option<OrderState>, draft: Draft)
  {
    match conv
    case None => true
    case Some(SelectingDepartment) => true
    case Some(EnteringProduct) => draft.department.Some?
    case Some(EnteringQuantity) => draft.department.Some? && draft.product.Some?
    case Some(SelectingPriority) => draft.department.Some? && draft.product.Some? && draft.quantity.Some?
  }

  /**
   * Each step keeps the draft's fields and the consistency of state and
   * draft; a step raises exactly when a button names an id that its catalog
   * lacks: the reads of the draft in `priority_callback` cannot fail.
   */
  lemma StepInvariant(conv: Option<OrderState>, draft: Draft, user: User, event: Event, env: Env)
    requires Consistent(conv, draft)
    ensures var r := Step(conv, draft, user, event, env);
      && KeepsFields(draft, r.draft)
      && Consistent(r.conv, r.draft)
      && (r.raised <==> UnknownId(conv, user, event, env))
      && (r.raised ==> r.conv == conv)
  {
  }

  /** The updates that raise `KeyError`: a button matching the state's pattern whose id its catalog lacks. */
  predicate UnknownId(conv: Option<OrderState>, user: User, event: Event, env: Env)
  {
    && event.CallbackQuery?
    && (|| (conv == Some(SelectingDepartment) && MatchesKind(DepartmentKind, event.data)
            && user.id in env.allowed && PayloadId(DepartmentKind, event.data) !in env.departments)
        || (conv == Some(SelectingPriority) && MatchesKind(PriorityKind, event.data)
            && PayloadId(PriorityKind, event.data) !in env.priorities))
  }

  /** The only step that relays an order ends the conversation from `SelectingPriority`. */
  lemma RelayOnlyFromPriority(conv: Option<OrderState>, draft: Draft, user: User, event: Event, env: Env)
    ensures var r := Step(conv, draft, user, event, env);
      (exists i :: 0 <= i < |r.outputs| && r.outputs[i].RelayToAdmins?) ==>
        conv == Some(SelectingPriority) && r.conv == None && !r.raised && event.CallbackQuery?
  {
  }

  // ---------------------------------------------------------------------
  // Runs of several updates of one user
  // ---------------------------------------------------------------------

  /** The state after a sequence of updates, with every output in order. */
  function Run(conv: Option<OrderState>, draft: Draft, user: User, events: seq<Event>, env: Env): StepResult
    decreases |events|
  {
    if events == [] then StepResult(conv, draft, [], false)
    else
      var r := Step(conv, draft, user, events[0], env);
      var rest := Run(r.conv, r.draft, user, events[1..], env);
      StepResult(rest.conv, rest.draft, r.outputs + rest.outputs, r.raised || rest.raised)
  }

  /** The relayed orders among some outputs, in order. */
  function Relayed(outputs: seq<Output>): seq<OrderMessage>
  {
    if outputs == [] then []
    else (if outputs[0].RelayToAdmins? then [outputs[0].order] else []) + Relayed(outputs[1..])
  }

  lemma {:induction false} RelayedAppend(a: seq<Output>, b: seq<Output>)
    ensures Relayed(a + b) == Relayed(a) + Relayed(b)
  {
    if a == [] {
      assert a + b == b;
    } else {
      assert (a + b)[0] == a[0];
      assert (a + b)[1..] == a[1..] + b;
      RelayedAppend(a[1..], b);
    }
  }

  lemma RunCons(conv: Option<OrderState>, draft: Draft, user: User, e: Event, rest: seq<Event>, env: Env)
    ensures Run(conv, draft, user, [e] + rest, env) ==
      var r := Step(conv, draft, user, e, env);
      var t := Run(r.conv, r.draft, user, rest, env);
      StepResult(t.conv, t.draft, r.outputs + t.outputs, r.raised || t.raised)
  {
    assert ([e] + rest)[0] == e && ([e] + rest)[1..] == rest;
  }

  /** Outputs without a relay relay nothing. */
  lemma {:induction false} RelayedNone(outputs: seq<Output>)
    requires forall i :: 0 <= i < |outputs| ==> !outputs[i].RelayToAdmins?
    ensures Relayed(outputs) == []
  {
    if outputs != [] {
      RelayedNone(outputs[1..]);
    }
  }

  /** Before `SelectingPriority` no step relays anything. */
  lemma NoRelayBeforePriority(conv: Option<OrderState>, draft: Draft, user: User, event: Event, env: Env)
    requires conv != Some(SelectingPriority)
    ensures Relayed(Step(conv, draft, user, event, env).outputs) == []
  {
    var outs := Step(conv, draft, user, event, env).outputs;
    assert forall i :: 0 <= i < |outs| ==> !outs[i].RelayToAdmins?;
    RelayedNone(outs);
  }

  /** The priority button of a complete draft records the priority and relays the order once. */
  lemma PriorityCompletes(draft: Draft, user: User, prioId: string, env: Env)
    requires draft.department.Some? && draft.product.Some? && draft.quantity.Some?
    requires prioId in env.priorities && '_' !in prioId
    ensures var r := Step(Some(SelectingPriority), draft, user, CallbackQuery(EncodePayload(PriorityKind, prioId)), env);
      && r.conv == None && !r.raised
      && r.draft == draft.(priority := Some(Choice(prioId, env.priorities[prioId])))
      && Relayed(r.outputs) == [OrderMessage(user.fullName, UsernameOrPlaceholder(user),
                                             draft.department.value.title, draft.product.value,
                                             draft.quantity.value, env.priorities[prioId], env.now)]
  {
    PayloadRoundTrip(PriorityKind, prioId);
    var outs := Step(Some(SelectingPriority), draft, user, CallbackQuery(EncodePayload(PriorityKind, prioId)), env).outputs;
    assert |outs| == 3 && outs[1].RelayToAdmins?;
    var l1 := outs[1..];
    var l2 := l1[1..];
    assert l2[1..] == [];
    assert Relayed(l2) == [];
    assert Relayed(l1) == [l1[0].order];
  }

  /** A step relays at most one order. */
  lemma AtMostOneRelay(conv: Option<OrderState>, draft: Draft, user: User, event: Event, env: Env)
    ensures |Relayed(Step(conv, draft, user, event, env).outputs)| <= 1
  {
    var outs := Step(conv, draft, user, event, env).outputs;
    if conv != Some(SelectingPriority) {
      NoRelayBeforePriority(conv, draft, user, event, env);
    } else if |outs| == 3 {
      var l1 := outs[1..];
      var l2 := l1[1..];
      assert l2[1..] == [];
      assert Relayed(l2) == [];
    } else if outs != [] {
      assert |outs| == 1 && !outs[0].RelayToAdmins?;
      assert outs[1..] == [];
    }
  }

  /**
   * An allowed user's complete order, from `/order` to the priority button,
   * relays exactly one order with the chosen department, the product and
   * quantity texts, the chosen priority, the sender and the time; the
   * conversation is then over and the draft keeps every field.
   */
  lemma CompleteOrder(user: User, draft: Draft, deptId: string, product: string, quantity: string,
                      prioId: string, env: Env)
    requires user.id in env.allowed
    requires deptId in env.departments && prioId in env.priorities
    requires '_' !in deptId && '_' !in prioId
    ensures var r := Run(None, draft, user,
                         [OrderCommand, CallbackQuery(EncodePayload(DepartmentKind, deptId)),
                          TextMessage(product), TextMessage(quantity),
                          CallbackQuery(EncodePayload(PriorityKind, prioId))], env);
      && r.conv == None && !r.raised
      && Relayed(r.outputs) == [OrderMessage(user.fullName, UsernameOrPlaceholder(user),
                                             env.departments[deptId], product, quantity,
                                             env.priorities[prioId], env.now)]
      && r.draft == Draft(Some(Choice(deptId, env.departments[deptId])), Some(product), Some(quantity),
                          Some(Choice(prioId, env.priorities[prioId])))
  {
    var e0, e1, e2, e3, e4 := OrderCommand, CallbackQuery(EncodePayload(DepartmentKind, deptId)),
                              TextMessage(product), TextMessage(quantity),
                              CallbackQuery(EncodePayload(PriorityKind, prioId));
    var d2 := draft.(department := Some(Choice(deptId, env.departments[deptId])));
    var d3 := d2.(product := Some(product));
    var d4 := d3.(quantity := Some(quantity));
    OrderEntry(draft, user, env);
    DepartmentSelection(draft, user, deptId, env);
    TextSteps(d2, user, product, env);
    TextSteps(d3, user, quantity, env);
    PriorityCompletes(d4, user, prioId, env);
    var r0 := Step(None, draft, user, e0, env);
    var r1 := Step(Some(SelectingDepartment), draft, user, e1, env);
    var r2 := Step(Some(EnteringProduct), d2, user, e2, env);
    var r3 := Step(Some(EnteringQuantity), d3, user, e3, env);
    var r4 := Step(Some(SelectingPriority), d4, user, e4, env);
    NoRelayBeforePriority(None, draft, user, e0, env);
    NoRelayBeforePriority(Some(SelectingDepartment), draft, user, e1, env);
    NoRelayBeforePriority(Some(EnteringProduct), d2, user, e2, env);
    NoRelayBeforePriority(Some(EnteringQuantity), d3, user, e3, env);
    var t5 := Run(r4.conv, r4.draft, user, [], env);
    RunCons(Some(SelectingPriority), d4, user, e4, [], env);
    var t4 := Run(Some(SelectingPriority), d4, user, [e4], env);
    assert [e4] + [] == [e4];
    RelayedAppend(r4.outputs, t5.outputs);
    RunCons(Some(EnteringQuantity), d3, user, e3, [e4], env);
    var t3 := Run(Some(EnteringQuantity), d3, user, [e3, e4], env);
    assert [e3] + [e4] == [e3, e4];
    RelayedAppend(r3.outputs, t4.outputs);
    RunCons(Some(EnteringProduct), d2, user, e2, [e3, e4], env);
    var t2 := Run(Some(EnteringProduct), d2, user, [e2, e3, e4], env);
    assert [e2] + [e3, e4] == [e2, e3, e4];
    RelayedAppend(r2.outputs, t3.outputs);
    RunCons(Some(SelectingDepartment), draft, user, e1, [e2, e3, e4], env);
    var t1 := Run(Some(SelectingDepartment), draft, user, [e1, e2, e3, e4], env);
    assert [e1] + [e2, e3, e4] == [e1, e2, e3, e4];
    RelayedAppend(r1.outputs, t2.outputs);
    RunCons(None, draft, user, e0, [e1, e2, e3, e4], env);
    assert [e0] + [e1, e2, e3, e4] == [e0, e1, e2, e3, e4];
    RelayedAppend(r0.outputs, t1.outputs);
  }

  /**
   * After `/cancel` in any state the conversation is over, and the next
   * `/order` of an allowed user starts again at the department menu with the
   * draft as it was left.
   */
  lemma CancelThenOrder(s: OrderState, draft: Draft, user: User, env: Env)
    requires user.id in env.allowed
    ensures var r := Run(Some(s), draft, user, [CancelCommand, OrderCommand], env);
      r.conv == Some(SelectingDepartment) && r.draft == draft && !r.raised
  {
    var events := [CancelCommand, OrderCommand];
    assert events[1..][1..] == [];
  }
}

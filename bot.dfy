/**
 * The `Bot` object of bot.py: the conversation states the conversation
 * handler keeps per chat and user, the per-user `user_data` drafts, the
 * registry, and the `/reload_users` command.
 */
module BotApp {

  import opened Wrappers
  import opened Users
  import opened Relay
  import opened Conversation

  /** The three answers of `/reload_users` (bot.py:216-235). */
  datatype ReloadReply = NotAdmin | ReloadSucceeded | ReloadFailed

  /** A user's draft in `user_data`: empty until a handler writes to it. */
  function DraftIn(drafts: map<int, Draft>, userId: int): Draft
  {
    if userId in drafts then drafts[userId] else EmptyDraft
  }

  /** Every conversation's state can rely on the fields before it in its user's draft. */
  ghost predicate AllConsistent(convs: map<(int, int), OrderState>, drafts: map<int, Draft>)
  {
    forall k :: k in convs ==> Consistent(Some(convs[k]), DraftIn(drafts, k.1))
  }

  /**
   * Storing one step's result under its (chat, user) key keeps every
   * conversation consistent: the step's own state is consistent with the new
   * draft, and so are the user's other conversations, since the draft lost
   * no field.
   */
  lemma StoreStep(convs: map<(int, int), OrderState>, drafts: map<int, Draft>,
                  key: (int, int), conv: Option<OrderState>, draft: Draft)
    requires AllConsistent(convs, drafts)
    requires Consistent(conv, draft) && KeepsFields(DraftIn(drafts, key.1), draft)
    ensures AllConsistent(if conv.Some? then convs[key := conv.value] else convs - {key},
                          drafts[key.1 := draft])
  {
    var after := if conv.Some? then convs[key := conv.value] else convs - {key};
    forall k | k in after
      ensures Consistent(Some(after[k]), DraftIn(drafts[key.1 := draft], k.1))
    {
      if k != key {
        assert k in convs && after[k] == convs[k];
        assert Consistent(Some(convs[k]), DraftIn(drafts, k.1));
      }
    }
  }

  /**
   * Updates go to `HandleUpdate`, except `/reload_users`, whose handler is
   * `ReloadUsersCommand`; `HandleUpdate` sees that command as an
   * `OtherCommand` and ignores it.
   */
  class Bot {
    const userManager: UserManager
    const departments: Catalog
    const priorities: Catalog
    /**
     * The conversation handler's table, keyed by (chat id, user id) as with
     * its default `per_chat` and `per_user`: a key without an entry is in no
     * conversation. One user may hold a conversation in several chats.
     */
    var conversations: map<(int, int), OrderState>
    /** `context.user_data` per user; never cleared. */
    var userData: map<int, Draft>

    function ConvOf(chatId: int, userId: int): Option<OrderState>
      reads this
    {
      if (chatId, userId) in conversations then Some(conversations[(chatId, userId)]) else None
    }

    function DraftOf(userId: int): Draft
      reads this
    {
      DraftIn(userData, userId)
    }

    /**
     * Admins are allowed, and every conversation's state can rely on the
     * fields before it in its user's draft, which all of that user's
     * conversations share.
     */
    ghost predicate Valid()
      reads this, userManager
    {
      && userManager.Valid()
      && AllConsistent(conversations, userData)
    }

    /** `Bot.__init__` with the registry already loaded and the two catalogs. */
    constructor (userManager: UserManager, departments: Catalog, priorities: Catalog)
      requires userManager.Valid()
      ensures Valid()
      ensures this.userManager == userManager
      ensures this.departments == departments && this.priorities == priorities
      ensures conversations == map[] && userData == map[]
    {
      this.userManager := userManager;
      this.departments := departments;
      this.priorities := priorities;
      conversations := map[];
      userData := map[];
    }

    /**
     * One update of `user` in chat `chatId`: the conversation step with the
     * registry's current allowed set, the new state stored for that chat and
     * user, the new draft for the user, and, when the step relays an order,
     * `_send_order_to_admins` over the current admins.
     */
    method HandleUpdate(chatId: int, user: User, event: Event, now: string, send: (int, OrderMessage) -> SendOutcome)
      returns (outputs: seq<Output>, log: seq<Attempt>)
      requires Valid()
      modifies this
      ensures Valid()
      ensures var r := Step(old(ConvOf(chatId, user.id)), old(DraftOf(user.id)), user, event,
                            Env(userManager.allowedUsers, departments, priorities, now));
        && outputs == r.outputs
        && userData == old(userData)[user.id := r.draft]
        && conversations == (if r.conv.Some? then old(conversations)[(chatId, user.id) := r.conv.value]
                             else old(conversations) - {(chatId, user.id)})
      ensures Relayed(outputs) == [] ==> log == []
      ensures forall order :: Relayed(outputs) == [order] ==>
        && Recipients(log) == userManager.admins && OncePerAdmin(log)
        && forall i :: 0 <= i < |log| ==> log[i].outcome == send(log[i].admin, order)
    {
      var key := (chatId, user.id);
      var before, draft := ConvOf(chatId, user.id), DraftOf(user.id);
      var env := Env(userManager.allowedUsers, departments, priorities, now);
      var r := Step(before, draft, user, event, env);
      StepInvariant(before, draft, user, event, env);
      AtMostOneRelay(before, draft, user, event, env);
      outputs := r.outputs;
      StoreStep(conversations, userData, key, r.conv, r.draft);
      userData := userData[user.id := r.draft];
      if r.conv.Some? {
        conversations := conversations[key := r.conv.value];
      } else {
        conversations := conversations - {key};
      }
      var relayed := Relayed(outputs);
      if |relayed| == 1 {
        log := SendOrderToAdmins(userManager.admins, relayed[0], send);
      } else {
        log := [];
      }
    }

    /**
     * `/reload_users`: refused to non-admins; for an admin the registry is
     * reloaded, and a failed reload keeps the registry as it was.
     */
    method ReloadUsersCommand(user: User, cfg: Config) returns (reply: ReloadReply)
      requires Valid()
      modifies userManager
      ensures Valid()
      ensures !old(userManager.IsAdmin(user.id)) ==> reply == NotAdmin
      ensures old(userManager.IsAdmin(user.id)) ==>
        (reply == ReloadFailed <==> ParsedIds(cfg.adminKeys) == {}) && reply != NotAdmin
      ensures reply == ReloadSucceeded ==>
        && userManager.admins == ParsedIds(cfg.adminKeys)
        && userManager.allowedUsers == ParsedIds(cfg.userKeys) + userManager.admins
      ensures reply != ReloadSucceeded ==>
        userManager.admins == old(userManager.admins) && userManager.allowedUsers == old(userManager.allowedUsers)
    {
      if !userManager.IsAdmin(user.id) {
        return NotAdmin;
      }
      var outcome := userManager.ReloadUsers(cfg);
      reply := if outcome == Loaded then ReloadSucceeded else ReloadFailed;
    }
  }
}

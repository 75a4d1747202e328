/**
 * The user registry (`UserManager` in bot.py): user-ID lines are parsed from
 * the `ADMINS` and `USERS` sections of the configuration, admins are folded
 * into the allowed set, and a configuration without any admin is refused
 * without touching the sets already loaded.
 */
module Users {

  import opened Wrappers
  import opened Text

  /**
   * The keys of the two configuration sections, in file order. A section that
   * is absent is an empty sequence: bot.py:82 and bot.py:96 skip it then.
   */
  datatype Config = Config(adminKeys: seq<string>, userKeys: seq<string>)

  /** `line.split('#')[0]`: the text before the first `#`. */
  function Uncommented(line: string): (r: string)
    ensures r <= line && '#' !in r
    ensures |r| < |line| ==> line[|r|] == '#'
  {
    SplitFirst(line, '#');
    Split(line, '#')[0]
  }

  /**
   * `_parse_user_id`: the comment is cut off, the rest is stripped, and an
   * empty or non-integer rest gives `None` instead of an exception.
   */
  function ParseUserId(line: string): (r: Option<int>)
    ensures r.Some? <==> IsIntLiteral(Strip(Uncommented(line)))
  {
    var idText := Strip(Uncommented(line));
    if idText == [] then None else ParseInt(idText)
  }

  /** An ID written out, with whitespace around it and an optional comment, is read back. */
  lemma ParseUserIdOfWrittenId(v: int, lead: string, trail: string, comment: string)
    requires AllSpace(lead) && AllSpace(trail)
    ensures ParseUserId(lead + FormatInt(v) + trail) == Some(v)
    ensures ParseUserId(lead + FormatInt(v) + trail + "#" + comment) == Some(v)
  {
    var body := lead + FormatInt(v) + trail;
    assert forall i :: 0 <= i < |body| ==> body[i] != '#' by {
      forall i | 0 <= i < |body|
        ensures body[i] != '#'
      {
        if i < |lead| {
          assert body[i] == lead[i];
        } else if i < |lead| + |FormatInt(v)| {
          assert body[i] == FormatInt(v)[i - |lead|];
        } else {
          assert body[i] == trail[i - |lead| - |FormatInt(v)|];
        }
      }
    }
    SplitWithoutSep(body, '#');
    SplitAtFirstSep(body, '#', comment);
    assert body + "#" + comment == body + ['#'] + comment;
    StripPadded(lead, FormatInt(v), trail);
    ParseFormat(v);
  }

  /** A blank line, or a line holding only a comment, yields no ID. */
  lemma ParseUserIdOfBlank(lead: string, comment: string)
    requires AllSpace(lead)
    ensures ParseUserId(lead) == None
    ensures ParseUserId(lead + "#" + comment) == None
  {
    assert '#' !in lead by {
      forall i | 0 <= i < |lead| ensures lead[i] != '#' {
        assert IsSpace(lead[i]);
      }
    }
    SplitWithoutSep(lead, '#');
    SplitAtFirstSep(lead, '#', comment);
    assert lead + "#" + comment == lead + ['#'] + comment;
    StripPadded(lead, [], []);
    assert lead + [] + [] == lead;
  }

  /** The ID a parse result contributes: none for `None`. */
  function IdsOf(r: Option<int>): (ids: set<int>)
    ensures forall v :: v in ids <==> r == Some(v)
  {
    match r
    case Some(v) => {v}
    case None => {}
  }

  /** The IDs `parse` finds in `keys`, line by line. */
  ghost function IdsParsedBy(keys: seq<string>, parse: string -> Option<int>): set<int>
    decreases |keys|
  {
    if keys == [] then {} else IdsParsedBy(keys[..|keys| - 1], parse) + IdsOf(parse(keys[|keys| - 1]))
  }

  /** The reference definition of a section's IDs: those of the lines `_parse_user_id` accepts. */
  ghost function ParsedIds(keys: seq<string>): set<int>
  {
    IdsParsedBy(keys, ParseUserId)
  }

  /** Every line that parses contributes its ID. */
  lemma {:induction false} ParsedByHas(keys: seq<string>, parse: string -> Option<int>, i: nat, v: int)
    requires i < |keys| && parse(keys[i]) == Some(v)
    ensures v in IdsParsedBy(keys, parse)
    decreases |keys|
  {
    var n := |keys| - 1;
    if i < n {
      assert keys[..n][i] == keys[i];
      ParsedByHas(keys[..n], parse, i, v);
    }
  }

  /** Every ID found comes from one of the lines. */
  lemma {:induction false} ParsedBySource(keys: seq<string>, parse: string -> Option<int>, v: int) returns (i: nat)
    requires v in IdsParsedBy(keys, parse)
    ensures i < |keys| && parse(keys[i]) == Some(v)
    decreases |keys|
  {
    var n := |keys| - 1;
    if parse(keys[n]) == Some(v) {
      i := n;
    } else {
      i := ParsedBySource(keys[..n], parse, v);
      assert keys[..n][i] == keys[i];
    }
  }

  /** The IDs of `keys[..i + 1]` are those of `keys[..i]` and the ID of line `i`, if any. */
  lemma ParsedByExtend(keys: seq<string>, parse: string -> Option<int>, i: nat)
    requires i < |keys|
    ensures IdsParsedBy(keys[..i + 1], parse) == IdsParsedBy(keys[..i], parse) + IdsOf(parse(keys[i]))
  {
    assert keys[..i + 1][..i] == keys[..i];
  }

  /**
   * One `for key in config[...]` loop of `_load_users`: parses every key and
   * adds the IDs of those that parse; the others are skipped.
   */
  method CollectIds(keys: seq<string>) returns (ids: set<int>)
    ensures ids == ParsedIds(keys)
    ensures forall i, v :: 0 <= i < |keys| && ParseUserId(keys[i]) == Some(v) ==> v in ids
    ensures forall v :: v in ids ==> exists i :: 0 <= i < |keys| && ParseUserId(keys[i]) == Some(v)
  {
    ids := {};
    for i := 0 to |keys|
      invariant ids == IdsParsedBy(keys[..i], ParseUserId)
    {
      ParsedByExtend(keys, ParseUserId, i);
      var userId := ParseUserId(keys[i]);
      if userId.Some? {
        ids := ids + {userId.value};
      }
    }
    assert keys[..|keys|] == keys;
    forall i, v | 0 <= i < |keys| && ParseUserId(keys[i]) == Some(v) ensures v in ids {
      ParsedByHas(keys, ParseUserId, i, v);
    }
    forall v | v in ids ensures exists i :: 0 <= i < |keys| && ParseUserId(keys[i]) == Some(v) {
      var i := ParsedBySource(keys, ParseUserId, v);
    }
  }

  /** The outcome of `_load_users`: it returns, or raises `ValueError` for want of admins. */
  datatype LoadOutcome = Loaded | NoAdmins

  class UserManager {
    var admins: set<int>
    var allowedUsers: set<int>

    /** Admins always have access. */
    ghost predicate Valid()
      reads this
    {
      admins <= allowedUsers
    }

    /** The two empty sets `__init__` starts from before it loads. */
    constructor ()
      ensures Valid() && admins == {} && allowedUsers == {}
    {
      admins := {};
      allowedUsers := {};
    }

    /**
     * `__init__`: an object exists only when the first load succeeds; a
     * configuration without an admin makes the constructor raise.
     */
    static method Create(cfg: Config) returns (m: UserManager?)
      ensures m == null <==> ParsedIds(cfg.adminKeys) == {}
      ensures m != null ==> fresh(m) && m.Valid() && m.admins != {}
      ensures m != null ==> m.admins == ParsedIds(cfg.adminKeys)
      ensures m != null ==> m.allowedUsers == ParsedIds(cfg.userKeys) + ParsedIds(cfg.adminKeys)
    {
      m := new UserManager();
      var outcome := m.LoadUsers(cfg);
      if outcome == NoAdmins {
        m := null;
      }
    }

    /**
     * `_load_users`: both sets are built first and assigned only once the
     * admin check has passed, so a refused configuration changes nothing.
     */
    method LoadUsers(cfg: Config) returns (outcome: LoadOutcome)
      modifies this
      ensures outcome == NoAdmins <==> ParsedIds(cfg.adminKeys) == {}
      ensures outcome == Loaded ==> admins == ParsedIds(cfg.adminKeys)
      ensures outcome == Loaded ==> allowedUsers == ParsedIds(cfg.userKeys) + admins
      ensures outcome == Loaded ==> Valid() && admins != {}
      ensures outcome == NoAdmins ==> admins == old(admins) && allowedUsers == old(allowedUsers)
      ensures old(Valid()) ==> Valid()
    {
      var newAdmins := CollectIds(cfg.adminKeys);
      if newAdmins == {} {
        return NoAdmins;
      }
      var newUsers := CollectIds(cfg.userKeys);
      admins := newAdmins;
      allowedUsers := newUsers + newAdmins;
      outcome := Loaded;
    }

    /** `is_admin`: membership in the admin set; under `Valid` an admin is also allowed. */
    predicate IsAdmin(userId: int)
      reads this
      ensures IsAdmin(userId) && Valid() ==> userId in allowedUsers
    {
      userId in admins
    }

    /** `is_allowed`: membership in the allowed set, which holds every admin under `Valid`. */
    predicate IsAllowed(userId: int)
      reads this
      ensures Valid() && userId in admins ==> IsAllowed(userId)
    {
      userId in allowedUsers
    }

    /**
     * `reload_users`: a re-run of the load. When it fails, every membership
     * answer stays what it was.
     */
    method ReloadUsers(cfg: Config) returns (outcome: LoadOutcome)
      modifies this
      ensures outcome == NoAdmins <==> ParsedIds(cfg.adminKeys) == {}
      ensures outcome == Loaded ==> admins == ParsedIds(cfg.adminKeys)
      ensures outcome == Loaded ==> allowedUsers == ParsedIds(cfg.userKeys) + admins
      ensures outcome == Loaded ==> Valid() && admins != {}
      ensures outcome == NoAdmins ==> admins == old(admins) && allowedUsers == old(allowedUsers)
      ensures outcome == NoAdmins ==> forall u :: IsAdmin(u) == old(IsAdmin(u)) && IsAllowed(u) == old(IsAllowed(u))
      ensures old(Valid()) ==> Valid()
    {
      outcome := LoadUsers(cfg);
    }
  }
}

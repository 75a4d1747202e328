/**
 * `_send_order_to_admins`: one send per admin, each inside its own
 * `try`/`except`, so that a failed send is logged and the loop goes on.
 * The transport is abstract: `send` gives the outcome of sending a message to
 * one recipient.
 */
module Relay {

  /** What one `send_message` call did: returned, or raised (caught per admin). */
  datatype SendOutcome = Sent | Failed(reason: string)

  /** One iteration of the loop: the admin addressed and what the send did. */
  datatype Attempt = Attempt(admin: int, outcome: SendOutcome)

  /** The admins a log of attempts addressed. */
  function Recipients(log: seq<Attempt>): (rs: set<int>)
    ensures forall i :: 0 <= i < |log| ==> log[i].admin in rs
  {
    set i | 0 <= i < |log| :: log[i].admin
  }

  lemma RecipientsAppend(log: seq<Attempt>, a: Attempt)
    ensures Recipients(log + [a]) == Recipients(log) + {a.admin}
  {
    var ext := log + [a];
    assert ext[|log|] == a;
    forall r | r in Recipients(ext) ensures r in Recipients(log) + {a.admin} {
      var i :| 0 <= i < |ext| && ext[i].admin == r;
      if i < |log| {
        assert log[i] == ext[i];
      }
    }
    forall r | r in Recipients(log) ensures r in Recipients(ext) {
      var i :| 0 <= i < |log| && log[i].admin == r;
      assert ext[i] == log[i];
    }
  }

  /** The admin that iterating over a set yields next; Python fixes no order. */
  method NextAdmin(remaining: set<int>) returns (adminId: int)
    requires remaining != {}
    ensures adminId in remaining
  {
    // `remaining != {}` alone does not show the verifier that some element
    // exists (a plain `assert exists a :: a in remaining` fails); ruling out
    // "no element is in `remaining`" gives the fact that `:|` needs.
    if forall a :: a !in remaining {
      assert false;
    }
    adminId :| adminId in remaining;
  }

  /** The admins a log of attempts reached. */
  function Reached(log: seq<Attempt>): set<int>
  {
    set i | 0 <= i < |log| && log[i].outcome == Sent :: log[i].admin
  }

  /** No admin appears twice in the log. */
  predicate OncePerAdmin(log: seq<Attempt>)
  {
    forall i, j :: 0 <= i < j < |log| ==> log[i].admin != log[j].admin
  }

  /**
   * Attempts every admin exactly once, in some order, and records what each
   * send did; a failure for one admin never stops the others, and the method
   * returns normally whatever the outcomes.
   */
  method SendOrderToAdmins<M>(admins: set<int>, message: M, send: (int, M) -> SendOutcome)
    returns (log: seq<Attempt>)
    ensures Recipients(log) == admins
    ensures OncePerAdmin(log) && |log| == |admins|
    ensures forall i :: 0 <= i < |log| ==> log[i].outcome == send(log[i].admin, message)
  {
    log := [];
    var remaining := admins;
    while remaining != {}
      invariant remaining <= admins
      invariant Recipients(log) == admins - remaining
      invariant OncePerAdmin(log) && |log| + |remaining| == |admins|
      invariant forall i :: 0 <= i < |log| ==> log[i].outcome == send(log[i].admin, message)
      decreases remaining
    {
      var adminId := NextAdmin(remaining);
      var outcome := send(adminId, message);
      assert adminId !in Recipients(log);
      RecipientsAppend(log, Attempt(adminId, outcome));
      log := log + [Attempt(adminId, outcome)];
      remaining := remaining - {adminId};
    }
  }

  /**
   * Who is reached by a log of the shape `SendOrderToAdmins` returns: exactly
   * the admins whose own send succeeds, whatever the others do.
   */
  lemma ReachedExactly<M>(admins: set<int>, message: M, send: (int, M) -> SendOutcome, log: seq<Attempt>)
    requires Recipients(log) == admins
    requires forall i :: 0 <= i < |log| ==> log[i].outcome == send(log[i].admin, message)
    ensures Reached(log) == set a | a in admins && send(a, message) == Sent
  {
    forall a | a in admins && send(a, message) == Sent
      ensures a in Reached(log)
    {
      var i :| 0 <= i < |log| && log[i].admin == a;
      assert log[i].outcome == Sent;
    }
  }
}

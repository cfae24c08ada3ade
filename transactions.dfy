/** `org.fcrepo.Transaction`: a unit of work over one store session, whose
    stored state and expiry its methods update in place. The wall clock and
    the `fcrepo4.tx.timeout` system property are parameters; the store's
    answer to `save` and `refresh` is the parameter `rejects`. Each method is
    proved against the function of TransactionSpec that describes it. */
module Transactions {
  import opened Wrappers
  import opened JavaLong
  import opened TransactionSpec
  import opened JcrSession

  class Transaction {
    const session: Session
    const id: string
    const created: Long
    var expires: Long
    var state: State

    /** The stored state is never `Dirty`. */
    ghost predicate Valid()
      reads this
    {
      state != Dirty
    }

    function View(): Tx
      reads this, session
    {
      Tx(state, expires, session.View())
    }

    /** `new Transaction(session)`: the id is supplied, `created` and the
        expiry are taken from the clock reading `now`. */
    constructor (session: Session, id: string, now: Long, timeoutProperty: Option<Long>)
      ensures Valid()
      ensures this.session == session && this.id == id && created == now
      ensures View() == Begin(session.View(), now, timeoutProperty)
    {
      this.session := session;
      this.created := now;
      this.id := id;
      this.expires := now;
      this.state := New;
      new;
      UpdateExpiryDate(now, timeoutProperty);
    }

    method GetState() returns (r: Result<State>)
      ensures r == TransactionSpec.GetState(View())
      ensures r.Ok? <==> session.live
      ensures Valid() ==> (r == Ok(Dirty) <==> session.live && |session.pending| > 0)
      ensures session.live && session.pending == [] ==> r == Ok(state)
    {
      var hasPending := session.HasPendingChanges();
      if hasPending.Err? {
        return Err(hasPending.error);
      }
      if hasPending.value {
        return Ok(Dirty);
      }
      r := Ok(state);
    }

    method Commit(now: Long, rejects: bool) returns (o: Outcome)
      requires Valid()
      modifies this, session
      ensures Valid()
      ensures (o, View()) == TransactionSpec.Commit(old(View()), now, rejects)
      ensures o.Failed? ==> state == old(state) && expires == old(expires) && session.live == old(session.live)
      ensures o == Done ==> state == Commited && !session.live && expires == now
    {
      o := session.Save(rejects);
      if o.Failed? {
        return;
      }
      state := Commited;
      Expire(now);
    }

    method Expire(now: Long)
      modifies this, session
      ensures View() == TransactionSpec.Expire(old(View()), now)
      ensures state == old(state) && !session.live && expires == now
    {
      session.Logout();
      expires := now;
    }

    method Rollback(now: Long, rejects: bool) returns (o: Outcome)
      requires Valid()
      modifies this, session
      ensures Valid()
      ensures (o, View()) == TransactionSpec.Rollback(old(View()), now, rejects)
      ensures state == RolledBack
      ensures o.Failed? ==> session.live == old(session.live) && expires == old(expires)
      ensures o == Done ==> session.pending == [] && !session.live && expires == now
    {
      state := RolledBack;
      o := session.Refresh(false, rejects);
      if o.Failed? {
        return;
      }
      Expire(now);
    }

    method UpdateExpiryDate(now: Long, timeoutProperty: Option<Long>)
      modifies this`expires
      ensures View() == TransactionSpec.UpdateExpiryDate(old(View()), now, timeoutProperty)
      ensures expires == Add(now, TimeoutDuration(timeoutProperty))
    {
      var duration: Long;
      if timeoutProperty.Some? {
        duration := timeoutProperty.value;
      } else {
        duration := DefaultTimeout;
      }
      expires := Add(now, duration);
    }
  }
}

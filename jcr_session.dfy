/** The store session a transaction wraps, as an object whose state the
    transaction and its clients change in place. Each method is proved
    against the matching function of StoreSpec. */
module JcrSession {
  import opened Wrappers
  import StoreSpec

  class Session {
    var live: bool
    var pending: seq<StoreSpec.Change>
    var persisted: seq<StoreSpec.Change>

    function View(): StoreSpec.Store
      reads this
    {
      StoreSpec.Store(live, pending, persisted)
    }

    constructor Open(persisted: seq<StoreSpec.Change>)
      ensures View() == StoreSpec.Open(persisted)
    {
      live := true;
      pending := [];
      this.persisted := persisted;
    }

    method HasPendingChanges() returns (r: Result<bool>)
      ensures r == StoreSpec.HasPendingChanges(View())
      ensures r.Ok? <==> live
      ensures r == Ok(true) <==> live && |pending| > 0
    {
      if !live {
        return Err(SessionClosed);
      }
      r := Ok(|pending| > 0);
    }

    method Record(c: StoreSpec.Change) returns (o: Outcome)
      modifies this
      ensures (o, View()) == StoreSpec.Record(old(View()), c)
    {
      if !live {
        return Failed(SessionClosed);
      }
      pending := pending + [c];
      o := Done;
    }

    method Save(rejects: bool) returns (o: Outcome)
      modifies this
      ensures (o, View()) == StoreSpec.Save(old(View()), rejects)
    {
      if !live {
        return Failed(SessionClosed);
      }
      if rejects {
        return Failed(StoreRejected);
      }
      persisted := persisted + pending;
      pending := [];
      o := Done;
    }

    method Refresh(keepChanges: bool, rejects: bool) returns (o: Outcome)
      modifies this
      ensures (o, View()) == StoreSpec.Refresh(old(View()), keepChanges, rejects)
    {
      if !live {
        return Failed(SessionClosed);
      }
      if rejects {
        return Failed(StoreRejected);
      }
      if !keepChanges {
        pending := [];
      }
      o := Done;
    }

    method Logout()
      modifies this
      ensures View() == StoreSpec.Logout(old(View()))
    {
      live := false;
      pending := [];
    }
  }
}

/** twitter/TwitterMonitor.java: the watcher that polls one account, keeps
    the id of the last tweet it saw, and tells its listeners about each new
    one. Fetching the page is outside the model: each check is handed the
    id it fetched (None when the fetch failed). Whether a listener throws is
    handed in as well, by its position in the listener list. */
module TwitterMonitoring {
  import opened Wrappers

  /** The account watched when none is configured. */
  const DefaultTargetUser: string := "xiaozhaolucky"

  /** Seconds between two scheduled checks. */
  const CheckPeriod: nat := 30

  /** One call of a listener's onNewTweet: which listener, with which
      account and tweet id, and whether the call threw. */
  datatype Delivery = Delivery(listener: nat, username: string, tweetId: string, threw: bool)

  /** The calls notifyNewTweet makes: one per registered listener, in
      registration order, each with the account and the new id, whether or
      not the ones before it threw. */
  function Deliveries(listeners: seq<nat>, user: string, tweetId: string, fails: nat -> bool): (r: seq<Delivery>)
    ensures |r| == |listeners|
    ensures forall i :: 0 <= i < |r| ==>
      r[i] == Delivery(listeners[i], user, tweetId, fails(i))
  {
    if listeners == [] then []
    else
      var n := |listeners| - 1;
      Deliveries(listeners[..n], user, tweetId, fails) + [Delivery(listeners[n], user, tweetId, fails(n))]
  }

  /** What one check leaves behind: the id now remembered and the id
      announced, if any. */
  datatype Step = Step(last: Option<string>, notice: Option<string>)

  /** checkForNewTweets on the remembered id `last` and the fetched id
      `latest`: a fetched id that differs from the remembered one is
      remembered from now on, and it is announced only when there was a
      remembered id before it; a failed fetch or the same id changes
      nothing. */
  function Observe(last: Option<string>, latest: Option<string>): (s: Step)
    ensures s.notice.Some? <==> last.Some? && latest.Some? && latest != last
    ensures s.notice.Some? ==> s.notice == latest
    ensures latest.Some? ==> s.last == latest
    ensures latest.None? ==> s.last == last
  {
    if latest.Some? && latest != last then
      Step(latest, if last.Some? then latest else None)
    else
      Step(last, None)
  }

  /** The ids announced over a run of checks that starts with `last`
      remembered. */
  function Notifications(last: Option<string>, observed: seq<Option<string>>): seq<string>
    decreases |observed|
  {
    if observed == [] then []
    else
      var s := Observe(last, observed[0]);
      (if s.notice.Some? then [s.notice.value] else []) + Notifications(s.last, observed[1..])
  }

  /** The ids a run of checks fetched, failed fetches dropped. */
  function Seen(observed: seq<Option<string>>): (r: seq<string>)
    ensures |r| <= |observed|
  {
    if observed == [] then []
    else (if observed[0].Some? then [observed[0].value] else []) + Seen(observed[1..])
  }

  /** The ids of `ids` that differ from the id just before them, `prev`
      counting as the one before the first. */
  function Changes(prev: string, ids: seq<string>): seq<string>
    decreases |ids|
  {
    if ids == [] then []
    else (if ids[0] != prev then [ids[0]] else []) + Changes(ids[0], ids[1..])
  }

  /** Once an id is remembered, the monitor announces exactly the fetched
      ids that differ from the id fetched before them. */
  lemma {:induction false} NotificationsAreChanges(x: string, observed: seq<Option<string>>)
    ensures Notifications(Some(x), observed) == Changes(x, Seen(observed))
    decreases |observed|
  {
    if observed != [] {
      var rest := observed[1..];
      assert Seen(observed) == (if observed[0].Some? then [observed[0].value] else []) + Seen(rest);
      if observed[0].Some? {
        var y := observed[0].value;
        NotificationsAreChanges(y, rest);
        assert Changes(x, [y] + Seen(rest)) == (if y != x then [y] else []) + Changes(y, Seen(rest)) by {
          assert ([y] + Seen(rest))[1..] == Seen(rest);
        }
      } else {
        NotificationsAreChanges(x, rest);
        assert Notifications(Some(x), observed) == Notifications(Some(x), rest);
        assert Seen(observed) == Seen(rest);
      }
    }
  }

  /** Starting with nothing remembered, the first id fetched is announced
      to nobody; after it, every change is. */
  lemma {:induction false} FirstIdIsSilent(observed: seq<Option<string>>)
    ensures Seen(observed) == [] ==> Notifications(None, observed) == []
    ensures Seen(observed) != [] ==>
      Notifications(None, observed) == Changes(Seen(observed)[0], Seen(observed)[1..])
    decreases |observed|
  {
    if observed != [] {
      var rest := observed[1..];
      assert Seen(observed) == (if observed[0].Some? then [observed[0].value] else []) + Seen(rest);
      if observed[0].Some? {
        NotificationsAreChanges(observed[0].value, rest);
        assert Seen(observed)[1..] == Seen(rest);
      } else {
        FirstIdIsSilent(rest);
        assert Notifications(None, observed) == Notifications(None, rest);
        assert Seen(observed) == Seen(rest);
      }
    }
  }

  /** No announcement repeats the id remembered before it: the first
      differs from the starting id and each differs from the one before. */
  lemma {:induction false} ChangesDiffer(prev: string, ids: seq<string>)
    ensures var r := Changes(prev, ids);
      (|r| > 0 ==> r[0] != prev) && forall i :: 0 < i < |r| ==> r[i] != r[i - 1]
    decreases |ids|
  {
    if ids != [] {
      ChangesDiffer(ids[0], ids[1..]);
      var tail := Changes(ids[0], ids[1..]);
      if ids[0] == prev {
        assert Changes(prev, ids) == tail;
        if |tail| > 0 {
          ChangesStartFrom(ids[0], ids[1..]);
        }
      }
    }
  }

  /** An id announced first by Changes(prev, ids) differs from prev. */
  lemma {:induction false} ChangesStartFrom(prev: string, ids: seq<string>)
    requires |Changes(prev, ids)| > 0
    ensures Changes(prev, ids)[0] != prev
    decreases |ids|
  {
    if ids[0] == prev {
      ChangesStartFrom(ids[0], ids[1..]);
    }
  }

  /** The monitor of one account: its listeners, the last tweet id it saw,
      whether it is monitoring, the state of its one-thread scheduler, and
      the record of the listener calls it has made. */
  class TwitterMonitor {
    const targetUser: string
    var listeners: seq<nat>
    var lastTweetId: Option<string>
    var isMonitoring: bool
    /** Polling tasks the scheduler has accepted. */
    var scheduled: nat
    /** Whether the scheduler has been shut down; it never restarts. */
    var shutDown: bool
    /** Every onNewTweet call made so far, in order. */
    var notified: seq<Delivery>

    /** At most one polling task is ever scheduled, and while the scheduler
        is alive the monitor polls exactly when it says it is monitoring. */
    predicate Valid()
      reads this
    {
      scheduled <= 1 && (!shutDown ==> (isMonitoring <==> scheduled == 1))
    }

    /** A fresh monitor: no listeners, nothing seen, not monitoring. */
    constructor (targetUser: string)
      ensures this.targetUser == targetUser && listeners == [] && lastTweetId.None?
      ensures !isMonitoring && scheduled == 0 && !shutDown && notified == []
      ensures Valid()
    {
      this.targetUser := targetUser;
      listeners := [];
      lastTweetId := None;
      isMonitoring := false;
      scheduled := 0;
      shutDown := false;
      notified := [];
    }

    /** addListener: the listener joins the end of the list. */
    method AddListener(listener: nat)
      requires Valid()
      modifies this
      ensures listeners == old(listeners) + [listener]
      ensures lastTweetId == old(lastTweetId) && isMonitoring == old(isMonitoring)
      ensures scheduled == old(scheduled) && shutDown == old(shutDown) && notified == old(notified)
      ensures Valid()
    {
      listeners := listeners + [listener];
    }

    /** startMonitoring: a second start while monitoring does nothing.
        Otherwise the monitor says it is monitoring and asks the scheduler
        for a check every 30 seconds; a scheduler already shut down by
        stopMonitoring refuses with an exception, which leaves the monitor
        saying it is monitoring while nothing polls. */
    method StartMonitoring() returns (r: Outcome<()>)
      requires Valid()
      modifies this
      ensures old(isMonitoring) ==> r == Done(()) && scheduled == old(scheduled) && isMonitoring
      ensures !old(isMonitoring) && !old(shutDown) ==>
        r == Done(()) && isMonitoring && scheduled == old(scheduled) + 1
      ensures !old(isMonitoring) && old(shutDown) ==>
        r.Thrown? && isMonitoring && scheduled == old(scheduled)
      ensures listeners == old(listeners) && lastTweetId == old(lastTweetId)
      ensures shutDown == old(shutDown) && notified == old(notified)
      ensures Valid()
    {
      if isMonitoring {
        return Done(());
      }
      isMonitoring := true;
      if shutDown {
        return Thrown;
      }
      scheduled := scheduled + 1;
      r := Done(());
    }

    /** stopMonitoring: not monitoring, and the scheduler shut down for
        good. */
    method StopMonitoring()
      requires Valid()
      modifies this
      ensures !isMonitoring && shutDown
      ensures listeners == old(listeners) && lastTweetId == old(lastTweetId)
      ensures scheduled == old(scheduled) && notified == old(notified)
      ensures Valid()
    {
      isMonitoring := false;
      shutDown := true;
    }

    /** checkForNewTweets with the id the fetch returned: remembers and
        announces it as Observe says. */
    method CheckForNewTweets(latest: Option<string>, fails: nat -> bool)
      requires Valid()
      modifies this
      ensures lastTweetId == Observe(old(lastTweetId), latest).last
      ensures Observe(old(lastTweetId), latest).notice.Some? ==>
        notified == old(notified) + Deliveries(listeners, targetUser, latest.value, fails)
      ensures Observe(old(lastTweetId), latest).notice.None? ==> notified == old(notified)
      ensures listeners == old(listeners) && isMonitoring == old(isMonitoring)
      ensures scheduled == old(scheduled) && shutDown == old(shutDown)
      ensures Valid()
    {
      if latest.Some? && latest != lastTweetId {
        if lastTweetId.Some? {
          NotifyNewTweet(latest.value, fails);
        }
        lastTweetId := latest;
      }
    }

    /** notifyNewTweet: every listener is called in turn; a listener that
        throws is logged and the next one is still called. */
    method NotifyNewTweet(tweetId: string, fails: nat -> bool)
      requires Valid()
      modifies this
      ensures notified == old(notified) + Deliveries(listeners, targetUser, tweetId, fails)
      ensures listeners == old(listeners) && lastTweetId == old(lastTweetId)
      ensures isMonitoring == old(isMonitoring) && scheduled == old(scheduled) && shutDown == old(shutDown)
      ensures Valid()
    {
      var i := 0;
      while i < |listeners|
        invariant 0 <= i <= |listeners|
        invariant notified == old(notified) + Deliveries(listeners[..i], targetUser, tweetId, fails)
        invariant listeners == old(listeners) && lastTweetId == old(lastTweetId)
        invariant isMonitoring == old(isMonitoring) && scheduled == old(scheduled) && shutDown == old(shutDown)
      {
        assert listeners[..i + 1][..i] == listeners[..i];
        notified := notified + [Delivery(listeners[i], targetUser, tweetId, fails(i))];
        i := i + 1;
      }
      assert listeners[..i] == listeners;
    }
  }
}

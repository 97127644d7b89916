/** The MutationObserver callback of main.js and its one-boolean toggle. Each delivered
    notification is reduced to whether a `.game-result` element exists at that moment and
    the plies the move list holds then. */
module Observer {

  import opened Wrappers
  import opened Extraction

  datatype Notification = Notification(gameOver: bool, plies: seq<Ply>)

  /** What one run of the callback did. */
  datatype Reaction =
    | Ignored                      // a game result is on the page: return at once
    | Swallowed                    // the toggle flipped to true: return
    | ExtractionFailed             // the toggle flipped to false, then a ply without icon threw
    | Requested(moves: seq<string>) // the toggle flipped to false and `{moves}` was posted
  {
    /** The callback went past the toggle and tried to build a request. */
    predicate Triggered() {
      ExtractionFailed? || Requested?
    }
  }

  datatype Step = Step(moved: bool, reaction: Reaction)

  /** One run of the callback from toggle value `moved`. */
  function Callback(moved: bool, n: Notification): (s: Step)
    ensures n.gameOver ==> s == Step(moved, Ignored)
    ensures !n.gameOver ==> s.moved == !moved && (s.reaction.Triggered() <==> moved)
    ensures s.reaction.Requested? <==> !n.gameOver && moved && Extract(n.plies, Observer).Some?
    ensures s.reaction.Requested? ==> Extract(n.plies, Observer) == Some(s.reaction.moves)
  {
    if n.gameOver then Step(moved, Ignored)
    else if !moved then Step(true, Swallowed)
    else match Extract(n.plies, Observer)
      case None => Step(false, ExtractionFailed)
      case Some(ms) => Step(false, Requested(ms))
  }

  /** The toggle after a stream of notifications and the callback's reaction to each. */
  datatype Trace = Trace(moved: bool, reactions: seq<Reaction>)

  /** The callback folded over notifications in delivery order. Nothing in the callback
      disconnects the observer, so every notification is handled. */
  function Observe(moved: bool, ns: seq<Notification>): (t: Trace)
    ensures |t.reactions| == |ns|
    ensures forall i :: 0 <= i < |ns| && ns[i].gameOver ==> t.reactions[i] == Ignored
    decreases |ns|
  {
    if ns == [] then Trace(moved, [])
    else
      var s := Callback(moved, ns[0]);
      var rest := Observe(s.moved, ns[1..]);
      Trace(rest.moved, [s.reaction] + rest.reactions)
  }

  /** The first notification is handled by one callback run, and the rest from the
      toggle that run left. */
  lemma ObserveCons(moved: bool, ns: seq<Notification>)
    requires ns != []
    ensures Observe(moved, ns).reactions
            == [Callback(moved, ns[0]).reaction] + Observe(Callback(moved, ns[0]).moved, ns[1..]).reactions
  {
  }

  /** The number of notifications delivered while no game result was on the page. */
  function CountLive(ns: seq<Notification>): nat {
    if ns == [] then 0 else (if ns[0].gameOver then 0 else 1) + CountLive(ns[1..])
  }

  predicate Odd(k: nat) {
    k % 2 == 1
  }

  lemma {:induction false} CountLiveAppend(a: seq<Notification>, b: seq<Notification>)
    ensures CountLive(a + b) == CountLive(a) + CountLive(b)
  {
    if a == [] {
      assert a + b == b;
    } else {
      assert (a + b)[1..] == a[1..] + b;
      CountLiveAppend(a[1..], b);
    }
  }

  /** The toggle after a stream is its start value flipped once per live notification. */
  lemma {:induction false} ObserveFinalToggle(moved: bool, ns: seq<Notification>)
    ensures Observe(moved, ns).moved == (moved != Odd(CountLive(ns)))
    decreases |ns|
  {
    if ns != [] {
      var s := Callback(moved, ns[0]);
      ObserveFinalToggle(s.moved, ns[1..]);
      assert Observe(moved, ns).moved == Observe(s.moved, ns[1..]).moved;
      OddStep(ns[0].gameOver, CountLive(ns[1..]));
    }
  }

  /** The parity invariant: a notification triggers exactly when it is live and an odd
      number of live notifications, counted from a false toggle, came before it; a
      notification while a game result shows is ignored. */
  lemma {:induction false} ObserveParity(moved: bool, ns: seq<Notification>, i: int)
    requires 0 <= i < |ns|
    ensures Observe(moved, ns).reactions[i].Triggered()
            <==> !ns[i].gameOver && (moved != Odd(CountLive(ns[..i])))
    ensures ns[i].gameOver ==> Observe(moved, ns).reactions[i] == Ignored
    decreases i
  {
    var s := Callback(moved, ns[0]);
    if i == 0 {
      assert ns[..0] == [];
    } else {
      var c := CountLive(ns[1..][..i - 1]);
      ObserveParity(s.moved, ns[1..], i - 1);
      ObserveCons(moved, ns);
      assert Observe(moved, ns).reactions[i] == Observe(s.moved, ns[1..]).reactions[i - 1];
      assert ns[1..][i - 1] == ns[i];
      CountLivePrefix(ns, i);
      OddStep(ns[0].gameOver, c);
    }
  }

  /** One more live notification flips the parity; a game-over one keeps it. */
  lemma OddStep(gameOver: bool, c: nat)
    ensures Odd((if gameOver then 0 else 1) + c) == (Odd(c) != !gameOver)
  {
  }

  /** Counting the live notifications before index `i` peels off the first one. */
  lemma {:induction false} CountLivePrefix(ns: seq<Notification>, i: int)
    requires 0 < i <= |ns|
    ensures CountLive(ns[..i]) == (if ns[0].gameOver then 0 else 1) + CountLive(ns[1..][..i - 1])
  {
    assert ns[..i] == [ns[0]] + ns[1..][..i - 1];
    CountLiveAppend([ns[0]], ns[1..][..i - 1]);
    assert [ns[0]][1..] == [];
  }

  /** Starting from `moved == false`, exactly the 2nd, 4th, 6th ... live notifications
      trigger a request attempt. */
  lemma {:induction false} EveryOtherLiveNotificationTriggers(ns: seq<Notification>, i: int)
    requires 0 <= i < |ns|
    ensures Observe(false, ns).reactions[i].Triggered()
            <==> !ns[i].gameOver && CountLive(ns[..i + 1]) % 2 == 0
  {
    ObserveParity(false, ns, i);
    var r := Observe(false, ns).reactions[i];
    assert r.Triggered() <==> !ns[i].gameOver && Odd(CountLive(ns[..i]));
    assert ns[..i + 1] == ns[..i] + [ns[i]];
    CountLiveAppend(ns[..i], [ns[i]]);
    assert [ns[i]][1..] == [];
  }

  /** Of two live notifications with only game-result notifications between them,
      exactly one triggers: no two consecutive live notifications both trigger, and no
      two both get swallowed. */
  lemma {:induction false} ConsecutiveLiveNotificationsAlternate(moved: bool, ns: seq<Notification>, i: int, j: int)
    requires 0 <= i < j < |ns|
    requires !ns[i].gameOver && !ns[j].gameOver
    requires forall k :: i < k < j ==> ns[k].gameOver
    ensures Observe(moved, ns).reactions[i].Triggered() != Observe(moved, ns).reactions[j].Triggered()
  {
    ObserveParity(moved, ns, i);
    ObserveParity(moved, ns, j);
    assert ns[..j] == ns[..i] + [ns[i]] + ns[i + 1..j];
    CountLiveAppend(ns[..i] + [ns[i]], ns[i + 1..j]);
    CountLiveAppend(ns[..i], [ns[i]]);
    AllOverCountsNothing(ns[i + 1..j]);
    assert [ns[i]][1..] == [];
    assert CountLive(ns[..j]) == CountLive(ns[..i]) + 1;
    OddStep(false, CountLive(ns[..i]));
  }

  lemma {:induction false} AllOverCountsNothing(ns: seq<Notification>)
    requires forall k :: 0 <= k < |ns| ==> ns[k].gameOver
    ensures CountLive(ns) == 0
  {
    if ns != [] {
      AllOverCountsNothing(ns[1..]);
    }
  }

  /** The number of reactions that tried to build a request. */
  function CountTriggered(rs: seq<Reaction>): nat {
    if rs == [] then 0 else (if rs[0].Triggered() then 1 else 0) + CountTriggered(rs[1..])
  }

  /** The toggle halves the live notifications: with `L` live notifications, exactly
      `L / 2` trigger when starting from false, and `(L + 1) / 2` when starting from true. */
  lemma {:induction false} TriggerCount(moved: bool, ns: seq<Notification>)
    ensures CountTriggered(Observe(moved, ns).reactions)
            == (CountLive(ns) + (if moved then 1 else 0)) / 2
    decreases |ns|
  {
    if ns != [] {
      var s := Callback(moved, ns[0]);
      TriggerCount(s.moved, ns[1..]);
      var t := Observe(moved, ns);
      assert t.reactions[1..] == Observe(s.moved, ns[1..]).reactions;
    }
  }

  /** A notification that arrives while a game result shows changes neither the toggle
      nor anything that follows: the observer stays attached and carries on as if the
      notification had not been delivered. */
  lemma {:induction false} GameOverIsTransparent(moved: bool, n: Notification, ns: seq<Notification>)
    requires n.gameOver
    ensures Observe(moved, [n] + ns) == Trace(Observe(moved, ns).moved, [Ignored] + Observe(moved, ns).reactions)
  {
    assert ([n] + ns)[1..] == ns;
  }
}

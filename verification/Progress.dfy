/** From every reachable state the server can finish what it has begun, and can come to rest empty. */
module Progress {
  import opened Lobbies
  import opened Registration
  import opened Departure
  import opened Sessions
  import opened Runs

  function Last(run: Run): State
    requires run.states != []
  {
    run.states[|run.states| - 1]
  }

  /** `longer` begins with the whole of `run`. */
  ghost predicate Continues(run: Run, longer: Run) {
    run.states <= longer.states && run.labels <= longer.labels
  }

  lemma Extend(hash: Hash, run: Run, a: Label) returns (longer: Run)
    requires IsRun(hash, run) && Enabled(Last(run), a)
    ensures IsRun(hash, longer) && Continues(run, longer) && longer.labels == run.labels + [a]
    ensures Last(longer) == Apply(hash, Last(run), a)
  {
    hide Enabled, Apply;
    longer := Run(run.states + [Apply(hash, Last(run), a)], run.labels + [a]);
    forall i | 0 <= i < |longer.labels| ensures StepAt(hash, longer, i) {
      assert i < |run.labels| ==> StepAt(hash, run, i);
    }
  }

  /** A token that has never been issued. */
  lemma {:induction false} FreshToken(issued: set<Token>) returns (t: Token)
    ensures forall x :: x in issued ==> x.nonce < t.nonce
    decreases |issued|
  {
    if issued == {} {
      t := Token(0);
    } else {
      var x :| x in issued;
      var rest := FreshToken(issued - {x});
      t := Token(if rest.nonce > x.nonce then rest.nonce else x.nonce + 1);
      assert forall y :: y in issued ==> y == x || y in issued - {x};
    }
  }

  lemma SuccessorExists(d: Directory, s: Session, k: Conn) returns (next: ClientId)
    ensures ValidSuccessor(d, s, k, next)
  {
    next := s.client;
    if OwnedBy(d, s.lobby, s.client, k) && d.lobbies[s.lobby].clients - {s.client} != map[] {
      next :| next in d.lobbies[s.lobby].clients - {s.client};
    }
  }

  /** A closing connection can always run its cleanup. */
  lemma CleanupStep(hash: Hash, run: Run, k: Conn) returns (longer: Run)
    requires IsRun(hash, run) && In(Last(run), k) && Last(run).conns[k].Closing?
    ensures IsRun(hash, longer) && Continues(run, longer) && Last(longer).conns == Last(run).conns[k := Done]
    ensures |longer.labels| == |run.labels| + 1 && longer.labels[|run.labels|].Cleanup?
    ensures Enabled(Last(run), longer.labels[|run.labels|])
    ensures Last(longer) == Apply(hash, Last(run), longer.labels[|run.labels|])
  {
    var s := Last(run);
    var t := FreshToken(s.issued);
    var next := ClientId(0);
    if s.conns[k].left.Some? {
      next := SuccessorExists(s.dir, s.conns[k].left.value, k);
    }
    longer := Extend(hash, run, Cleanup(k, next, t));
  }

  // ----- Finishing what has begun -----

  /** The connections whose own next step the server owes them. */
  ghost function Busy(s: State): set<Conn> {
    set k | k in s.conns && (s.conns[k].Committed? || s.conns[k].Closing?)
  }

  /** The steps the server takes by itself to finish work in progress. */
  predicate Finishing(a: Label) {
    a.Welcome? || a.Cleanup? || a.Deliver?
  }

  /** From `n` on, the run consists of finishing steps only. */
  ghost predicate OnlyFinishing(run: Run, n: nat) {
    forall i :: n <= i < |run.labels| ==> Finishing(run.labels[i])
  }

  /** A busy connection is worth two steps: its own, and the delivery that step may owe. */
  ghost function Work(s: State): nat {
    2 * |Busy(s)| + |s.notices|
  }

  lemma BusyShrinks(s: State, s2: State, k: Conn, p: Phase)
    requires k in Busy(s) && s2.conns == s.conns[k := p] && !p.Committed? && !p.Closing?
    requires s2.notices == s.notices || exists n :: s2.notices == s.notices + {n}
    ensures Work(s2) < Work(s)
  {
    assert Busy(s2) == Busy(s) - {k};
  }

  /** Every finishing step leaves less to do. */
  lemma FinishingWorks(hash: Hash, s: State, a: Label)
    requires Enabled(s, a) && Finishing(a)
    ensures Work(Apply(hash, s, a)) < Work(s)
  {
    var s2 := Apply(hash, s, a);
    hide Depart, Work;
    match a
    case Welcome(k) => BusyShrinks(s, s2, k, Registered(s.conns[k].session));
    case Cleanup(k, _, _) => BusyShrinks(s, s2, k, Done);
    case Deliver(n) => DeliveryWorks(s, s2, n);
  }

  lemma DeliveryWorks(s: State, s2: State, n: Notice)
    requires n in s.notices && s2.conns == s.conns && s2.notices == s.notices - {n}
    ensures Work(s2) < Work(s)
  {
    assert Busy(s2) == Busy(s);
  }

  /** While anything is in flight, some finishing step can be taken. */
  lemma FinishStep(hash: Hash, run: Run) returns (longer: Run)
    requires IsRun(hash, run) && !Settled(Last(run))
    ensures IsRun(hash, longer) && Continues(run, longer)
    ensures |longer.labels| == |run.labels| + 1 && Finishing(longer.labels[|run.labels|])
    ensures Enabled(Last(run), longer.labels[|run.labels|])
    ensures Last(longer) == Apply(hash, Last(run), longer.labels[|run.labels|])
  {
    var s := Last(run);
    if k :| k in s.conns && s.conns[k].Committed? {
      longer := Extend(hash, run, Welcome(k));
    } else if k :| k in s.conns && s.conns[k].Closing? {
      longer := CleanupStep(hash, run, k);
    } else {
      var n :| n in s.notices;
      longer := Extend(hash, run, Deliver(n));
    }
  }

  /**
   The server settles whichever of its own steps it takes: however it welcomes,
   cleans up and delivers from moment `n` on, it takes no more steps than there
   was work at `n`.
   */
  lemma {:induction false} FinishingIsBounded(hash: Hash, run: Run, n: nat, j: nat)
    requires IsRun(hash, run) && n <= j <= |run.labels| && OnlyFinishing(run, n)
    ensures Work(run.states[j]) + (j - n) <= Work(run.states[n])
    decreases j
  {
    if n < j {
      FinishingIsBounded(hash, run, n, j - 1);
      assert StepAt(hash, run, j - 1);
      FinishingWorks(hash, run.states[j - 1], run.labels[j - 1]);
    }
  }

  /** Nothing is in flight exactly when no finishing step can be taken. */
  lemma SettledIffStuck(hash: Hash, run: Run)
    requires IsRun(hash, run)
    ensures Settled(Last(run)) <==> !exists a :: Finishing(a) && Enabled(Last(run), a)
  {
    if !Settled(Last(run)) {
      var longer := FinishStep(hash, run);
      assert Finishing(longer.labels[|run.labels|]) && Enabled(Last(run), longer.labels[|run.labels|]);
    }
  }

  /** From every reachable state the server can settle, and nobody has to hang up for it. */
  lemma {:induction false} CanSettle(hash: Hash, run: Run) returns (longer: Run)
    requires IsRun(hash, run)
    ensures IsRun(hash, longer) && Continues(run, longer) && OnlyFinishing(longer, |run.labels|)
    ensures Settled(Last(longer)) && |longer.labels| <= |run.labels| + Work(Last(run))
    decreases Work(Last(run))
  {
    longer := run;
    if !Settled(Last(run)) {
      var next := FinishStep(hash, run);
      FinishingWorks(hash, Last(run), next.labels[|run.labels|]);
      longer := CanSettle(hash, next);
      assert longer.labels[|run.labels|] == next.labels[|run.labels|];
    }
  }

  // ----- Coming to rest -----

  function StepsLeft(p: Phase): nat {
    match p
    case Done => 0
    case Closing(_) => 1
    case Moderating(_, _) => 3
    case _ => 2
  }

  /** Any one connection can be seen through to the end without moving another. */
  lemma {:induction false} CanFinish(hash: Hash, run: Run, k: Conn) returns (longer: Run)
    requires IsRun(hash, run) && In(Last(run), k)
    ensures IsRun(hash, longer) && Continues(run, longer) && Last(longer).conns == Last(run).conns[k := Done]
    decreases StepsLeft(Last(run).conns[k])
  {
    var p := Last(run).conns[k];
    longer := run;
    if p.Closing? {
      longer := CleanupStep(hash, run, k);
    } else if !p.Done? {
      var next;
      if p.Moderating? {
        var t := FreshToken(Last(run).issued);
        next := Extend(hash, run, Decide(k, t));
      } else {
        next := Extend(hash, run, if p.Committed? then Abandon(k) else Hangup(k));
      }
      longer := CanFinish(hash, next, k);
      assert Last(longer).conns == Last(run).conns[k := Done];
    } else {
      assert Last(run).conns[k := Done] == Last(run).conns;
    }
  }

  ghost function Unfinished(s: State): set<Conn> {
    set k | k in s.conns && !s.conns[k].Done?
  }

  /** From every reachable state the server can come to rest: every connection done, both maps empty. */
  lemma {:induction false} CanEmpty(hash: Hash, run: Run) returns (longer: Run)
    requires IsRun(hash, run)
    ensures IsRun(hash, longer) && Continues(run, longer)
    ensures forall k :: k in Last(longer).conns ==> Last(longer).conns[k].Done?
    ensures Last(longer).dir == Directory(map[], map[])
    decreases |Unfinished(Last(run))|
  {
    if Unfinished(Last(run)) == {} {
      longer := run;
      assert forall k :: k in Last(run).conns && !Last(run).conns[k].Done? ==> k in Unfinished(Last(run));
      NoLeak(hash, run, |run.states| - 1);
    } else {
      var k :| k in Unfinished(Last(run));
      var next := CanFinish(hash, run, k);
      assert Unfinished(Last(next)) == Unfinished(Last(run)) - {k};
      longer := CanEmpty(hash, next);
    }
  }
}

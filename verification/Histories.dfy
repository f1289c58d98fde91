/** Theorems that relate different moments of one run. */
module Histories {
  import opened Options
  import opened Lobbies
  import opened Registration
  import opened Moderation
  import opened Departure
  import opened Sessions
  import opened Runs

  /** The run's `i`-th step, with the invariant on both sides. */
  lemma At(hash: Hash, run: Run, i: nat)
    requires IsRun(hash, run) && i < |run.labels|
    ensures Inv(run.states[i]) && Enabled(run.states[i], run.labels[i]) && Inv(run.states[i + 1])
    ensures run.states[i + 1] == Apply(hash, run.states[i], run.labels[i])
  {
    hide Inv, Enabled, Apply;
    RunKeepsInv(hash, run, i);
    RunKeepsInv(hash, run, i + 1);
    assert StepAt(hash, run, i);
  }

  ghost predicate Holds(s: State, l: LobbyId, t: Token) {
    l in s.dir.lobbies && s.dir.lobbies[l].token == t
  }

  ghost predicate TouchesAt(hash: Hash, run: Run, i: nat, l: LobbyId)
    requires IsRun(hash, run) && i < |run.labels|
  {
    StepAt(hash, run, i) && Touches(hash, run.states[i], run.labels[i], l)
  }

  /** Lobby `l` took a token never issued before, or vanished. */
  ghost predicate FreshlyRenewed(s: State, s2: State, l: LobbyId) {
    exists t :: t !in s.issued && Renewed(s.dir, s2.dir, l, t)
  }

  /** What the `i`-th step does to lobby `l`, without saying which step it is. */
  lemma StepOn(hash: Hash, run: Run, i: nat, l: LobbyId)
    requires IsRun(hash, run) && i < |run.labels|
    ensures TouchesAt(hash, run, i, l) ==> FreshlyRenewed(run.states[i], run.states[i + 1], l)
    ensures !TouchesAt(hash, run, i, l) ==> SameLobby(run.states[i].dir, run.states[i + 1].dir, l)
    ensures run.states[i].issued <= run.states[i + 1].issued
  {
    At(hash, run, i);
    StepTouches(hash, run.states[i], run.labels[i], l);
  }

  // ----- The staleness test is exact -----

  lemma SpentStep(hash: Hash, run: Run, i: nat, l: LobbyId, t: Token)
    requires IsRun(hash, run) && i < |run.labels| && t in run.states[i].issued
    ensures t in run.states[i + 1].issued
    ensures Holds(run.states[i + 1], l, t) ==> Holds(run.states[i], l, t) && !TouchesAt(hash, run, i, l)
    ensures Holds(run.states[i + 1], l, t) ==>
              && run.states[i + 1].dir.lobbies[l].clients == run.states[i].dir.lobbies[l].clients
              && run.states[i + 1].dir.lobbies[l].epoch == run.states[i].dir.lobbies[l].epoch
  {
    StepOn(hash, run, i, l);
  }

  /**
   If a lobby holds the same token at two moments, then in between it never
   vanished, no step touched its membership, and its records are the same ones.
   */
  lemma {:induction false} TokenPinsMembership(hash: Hash, run: Run, i: nat, j: nat, l: LobbyId, t: Token)
    requires IsRun(hash, run) && i <= j < |run.states|
    requires t in run.states[i].issued && Holds(run.states[j], l, t)
    ensures t in run.states[j].issued && Holds(run.states[i], l, t)
    ensures forall m :: i <= m < j ==> !TouchesAt(hash, run, m, l)
    ensures run.states[j].dir.lobbies[l].clients == run.states[i].dir.lobbies[l].clients
    ensures run.states[j].dir.lobbies[l].epoch == run.states[i].dir.lobbies[l].epoch
    decreases j
  {
    if i < j {
      IssuedGrows(hash, run, i, j - 1);
      SpentStep(hash, run, j - 1, l, t);
      TokenPinsMembership(hash, run, i, j - 1, l, t);
    }
  }

  lemma {:induction false} IssuedGrows(hash: Hash, run: Run, i: nat, j: nat)
    requires IsRun(hash, run) && i <= j < |run.states|
    ensures run.states[i].issued <= run.states[j].issued
    decreases j
  {
    if i < j {
      IssuedGrows(hash, run, i, j - 1);
      At(hash, run, j - 1);
    }
  }

  // ----- Births and deaths of a lobby -----

  ghost predicate BornAt(run: Run, i: nat, l: LobbyId)
    requires i < |run.labels| < |run.states|
  {
    l !in run.states[i].dir.lobbies && l in run.states[i + 1].dir.lobbies
  }

  ghost predicate DiesAt(run: Run, i: nat, l: LobbyId)
    requires i < |run.labels| < |run.states|
  {
    l in run.states[i].dir.lobbies && l !in run.states[i + 1].dir.lobbies
  }

  /** The step is an admitted registration for `l` in the given entry mode. */
  ghost predicate AdmittedAt(hash: Hash, run: Run, i: nat, l: LobbyId, mode: EntryMode)
    requires IsRun(hash, run) && i < |run.labels|
  {
    var a := run.labels[i];
    && a.Submit? && a.request.lobby == l && a.request.entryMode == Some(mode) && Screen(a.request).None?
    && Admissible(hash, run.states[i].dir, a.request, a.locked)
  }

  /** Only an admitted registration that does not insist on joining brings a lobby into being. */
  lemma BirthIsAdmission(hash: Hash, run: Run, i: nat, l: LobbyId)
    requires IsRun(hash, run) && i < |run.labels| && BornAt(run, i, l)
    ensures run.labels[i].Submit? && TouchesAt(hash, run, i, l) && !AdmittedAt(hash, run, i, l, Join)
    ensures run.states[i + 1].dir.lobbies[l].epoch == 1
    ensures run.states[i + 1].dir.lobbies[l].token == run.labels[i].draw.token
    ensures run.states[i + 1].dir.lobbies[l].host == run.labels[i].request.identity.value
  {
    At(hash, run, i);
    var s, a := run.states[i], run.labels[i];
    StepTouches(hash, s, a, l);
    assert StepAt(hash, run, i);
    assert Touches(hash, s, a, l);
    if a.Submit? {
      AdmissionEffect(hash, s.dir, a.request, a.locked, a.draw, a.k);
    }
  }

  lemma OnlyCleanupRemovesLobbies(hash: Hash, s: State, a: Label, l: LobbyId)
    requires DirectoryOk(s.dir) && Enabled(s, a) && !a.Cleanup? && l in s.dir.lobbies
    ensures l in Apply(hash, s, a).dir.lobbies
  {
    hide Admit, Admissible, DirectoryOk, Moderate;
    match a
    case Submit(k, r, locked, draw) =>
      if Screen(r).None? {
        AdmissionDecided(hash, s.dir, r, locked, draw, k);
        if Admissible(hash, s.dir, r, locked) {
          AdmissionFrame(hash, s.dir, r, locked, draw, k);
        }
      }
    case Decide(k, t) =>
      if KickLands(s.dir, s.conns[k].session, k, s.conns[k].action) {
        KickEffect(s.dir, s.conns[k].session, k, s.conns[k].action, t);
      } else {
        QuietModeration(s.dir, s.conns[k].session, k, s.conns[k].action, t);
      }
    case _ =>
  }

  /** Only the cleanup of its very last member destroys a lobby. */
  lemma DeathIsLastDeparture(hash: Hash, run: Run, i: nat, l: LobbyId)
    requires IsRun(hash, run) && i < |run.labels| && DiesAt(run, i, l)
    ensures
      var s, a := run.states[i], run.labels[i];
      && a.Cleanup? && Owns(s, a.k) && s.conns[a.k].Closing? && s.conns[a.k].left.value.lobby == l
      && s.dir.lobbies[l].clients.Keys == {s.conns[a.k].left.value.client}
  {
    At(hash, run, i);
    var s, a := run.states[i], run.labels[i];
    if !a.Cleanup? {
      OnlyCleanupRemovesLobbies(hash, s, a, l);
    } else {
      StepTouches(hash, s, a, l);
      var left := s.conns[a.k].left.value;
      DepartureEffect(s.dir, left, a.k, a.next, a.token);
      SenderDecides(hash, run, i, a.k, l, left.client);
    }
  }

  /** A lobby present at one moment and absent at a later one died in between. */
  lemma {:induction false} DiesBetween(run: Run, i: nat, j: nat, l: LobbyId) returns (m: nat)
    requires i <= j < |run.states| && |run.states| == |run.labels| + 1
    requires l in run.states[i].dir.lobbies && l !in run.states[j].dir.lobbies
    ensures i <= m < j && DiesAt(run, m, l)
    decreases j - i
  {
    if l !in run.states[i + 1].dir.lobbies {
      m := i;
    } else {
      m := DiesBetween(run, i + 1, j, l);
    }
  }

  /** Between two successful creations of the same lobby its last member left: racing creators have one winner. */
  lemma CreationsAlternateWithDestruction(hash: Hash, run: Run, i: nat, j: nat, l: LobbyId)
    requires IsRun(hash, run) && i < j < |run.labels|
    requires AdmittedAt(hash, run, i, l, Create) && AdmittedAt(hash, run, j, l, Create)
    ensures BornAt(run, i, l) && BornAt(run, j, l)
    ensures exists m :: i < m < j && DiesAt(run, m, l)
  {
    CreationIsBirth(hash, run, i, l);
    CreationIsBirth(hash, run, j, l);
    var m := DiesBetween(run, i + 1, j, l);
  }

  lemma CreationIsBirth(hash: Hash, run: Run, i: nat, l: LobbyId)
    requires IsRun(hash, run) && i < |run.labels| && AdmittedAt(hash, run, i, l, Create)
    ensures BornAt(run, i, l)
  {
    At(hash, run, i);
    StepTouches(hash, run.states[i], run.labels[i], l);
  }

  // ----- The epoch counts membership changes -----

  /** How many steps in `[i, j)` touched the membership of `l`. */
  ghost function Changes(hash: Hash, run: Run, i: nat, j: nat, l: LobbyId): nat
    requires IsRun(hash, run) && i <= j <= |run.labels|
    decreases j - i
  {
    if i == j then 0 else Changes(hash, run, i, j - 1, l) + if TouchesAt(hash, run, j - 1, l) then 1 else 0
  }

  /** The lobby exists at every moment in `(i, j]`. */
  ghost predicate Persists(run: Run, i: nat, j: nat, l: LobbyId) {
    forall m :: i < m <= j && m < |run.states| ==> l in run.states[m].dir.lobbies
  }

  function Saturated(n: nat): nat {
    if n <= U64_MAX then n else U64_MAX
  }

  lemma EpochStep(hash: Hash, run: Run, i: nat, l: LobbyId)
    requires IsRun(hash, run) && i < |run.labels|
    requires l in run.states[i].dir.lobbies && l in run.states[i + 1].dir.lobbies
    ensures run.states[i + 1].dir.lobbies[l].epoch ==
            if TouchesAt(hash, run, i, l) then NextEpoch(run.states[i].dir.lobbies[l].epoch)
            else run.states[i].dir.lobbies[l].epoch
  {
    StepOn(hash, run, i, l);
  }

  /** Within one incarnation the epoch is 1 plus the membership changes since creation, up to saturation. */
  lemma {:induction false} EpochCountsChanges(hash: Hash, run: Run, i: nat, j: nat, l: LobbyId)
    requires IsRun(hash, run) && i < j <= |run.labels| && BornAt(run, i, l) && Persists(run, i, j, l)
    ensures run.states[j].dir.lobbies[l].epoch == Saturated(1 + Changes(hash, run, i + 1, j, l))
    decreases j
  {
    hide Touches, StepAt;
    if j == i + 1 {
      BirthIsAdmission(hash, run, i, l);
    } else {
      EpochCountsChanges(hash, run, i, j - 1, l);
      assert l in run.states[j - 1].dir.lobbies && l in run.states[j].dir.lobbies;
      EpochStep(hash, run, j - 1, l);
    }
  }

  lemma {:induction false} ChangesSplit(hash: Hash, run: Run, i: nat, m: nat, j: nat, l: LobbyId)
    requires IsRun(hash, run) && i <= m <= j <= |run.labels|
    ensures Changes(hash, run, i, j, l) == Changes(hash, run, i, m, l) + Changes(hash, run, m, j, l)
    decreases j
  {
    if m < j {
      ChangesSplit(hash, run, i, m, j - 1, l);
    }
  }

  /** Epochs handed out by successive commits to one incarnation strictly increase until they saturate. */
  lemma LaterCommitsSeeLaterEpochs(hash: Hash, run: Run, born: nat, i: nat, j: nat, l: LobbyId)
    requires IsRun(hash, run) && born <= i < j < |run.labels|
    requires BornAt(run, born, l) && Persists(run, born, j + 1, l)
    requires TouchesAt(hash, run, j, l)
    ensures run.states[i + 1].dir.lobbies[l].epoch < run.states[j + 1].dir.lobbies[l].epoch
            || run.states[j + 1].dir.lobbies[l].epoch == U64_MAX
  {
    hide Touches, StepAt;
    EpochCountsChanges(hash, run, born, i + 1, l);
    EpochCountsChanges(hash, run, born, j + 1, l);
    assert Changes(hash, run, i + 1, j + 1, l) >= 1;
    ChangesSplit(hash, run, born + 1, i + 1, j + 1, l);
  }

  /** The epoch alone cannot tell incarnations apart; the token can. */
  lemma EpochRestartsButTokenDoesNot(hash: Hash, run: Run, i: nat, j: nat, l: LobbyId)
    requires IsRun(hash, run) && i < j < |run.labels| && BornAt(run, i, l) && BornAt(run, j, l)
    ensures run.states[i + 1].dir.lobbies[l].epoch == run.states[j + 1].dir.lobbies[l].epoch == 1
    ensures run.states[i + 1].dir.lobbies[l].token != run.states[j + 1].dir.lobbies[l].token
  {
    hide Touches, StepAt;
    BirthIsAdmission(hash, run, i, l);
    BirthIsAdmission(hash, run, j, l);
    var t := run.states[i + 1].dir.lobbies[l].token;
    assert t in run.states[i + 1].issued by { RunKeepsInv(hash, run, i + 1); }
    if Holds(run.states[j + 1], l, t) {
      TokenPinsMembership(hash, run, i + 1, j + 1, l, t);
      assert false;
    }
  }
}

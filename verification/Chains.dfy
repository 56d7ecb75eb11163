/** What a legal chain of committed rows implies, whatever processes produced it. */
module Chains {
  import opened Wrappers
  import opened States
  import opened WorkflowRuns
  import opened Reports
  import opened Transactions
  import opened RowInvariants
  import opened Protocol
  import opened History

  lemma LinkAt(origin: RunRow, chain: seq<Link>, i: nat)
    requires LegalChain(origin, chain) && i < |chain|
    ensures LegalLink(RowAt(origin, chain, i), chain[i]) && chain[i].run == RowAt(origin, chain, i + 1)
  {
  }

  // ----- Lost updates -----

  lemma {:induction false} VersionsIncrease(origin: RunRow, chain: seq<Link>, i: nat, j: nat)
    requires LegalChain(origin, chain) && i < j <= |chain|
    ensures RowAt(origin, chain, i).stateVersion < RowAt(origin, chain, j).stateVersion
    decreases j - i
  {
    hide LegalLink;
    VersionStep(origin, chain, j - 1);
    if i < j - 1 {
      VersionsIncrease(origin, chain, i, j - 1);
    }
  }

  lemma VersionStep(origin: RunRow, chain: seq<Link>, i: nat)
    requires LegalChain(origin, chain) && i < |chain|
    ensures RowAt(origin, chain, i).stateVersion < RowAt(origin, chain, i + 1).stateVersion
    ensures chain[i].snap.run == RowAt(origin, chain, i)
  {
    hide Mutate;
    LinkAt(origin, chain, i);
  }

  /** Of two transactions that loaded the same version at most one commits, and each committed one loaded its predecessor. */
  lemma OneCommitPerVersion(origin: RunRow, chain: seq<Link>, i: nat, j: nat)
    requires LegalChain(origin, chain) && i < j < |chain|
    ensures chain[i].snap.run == RowAt(origin, chain, i)
    ensures chain[i].snap.run.stateVersion < chain[i].run.stateVersion <= chain[j].snap.run.stateVersion
  {
    hide LegalLink;
    VersionStep(origin, chain, i);
    VersionStep(origin, chain, j);
    if i + 1 < j {
      VersionsIncrease(origin, chain, i + 1, j);
    }
  }

  // ----- Stays -----

  /** Between a row outside a state and a later row in it, some link entered the state. */
  lemma {:induction false} EntersBetween(origin: RunRow, chain: seq<Link>, i: nat, j: nat, state: WorkflowState)
    returns (k: nat)
    requires i < j <= |chain|
    requires RowAt(origin, chain, i).state != state && RowAt(origin, chain, j).state == state
    ensures i <= k < j && RowAt(origin, chain, k).state != state && chain[k].run.state == state
    decreases j - i
  {
    if RowAt(origin, chain, j - 1).state != state {
      k := j - 1;
    } else {
      k := EntersBetween(origin, chain, i, j - 1, state);
    }
  }

  predicate EnteredIn(origin: RunRow, chain: seq<Link>, i: nat, j: nat, state: WorkflowState)
    requires i <= j <= |chain|
  {
    exists k :: i <= k < j && RowAt(origin, chain, k).state != state && chain[k].run.state == state
  }

  lemma CompletionLink(prev: RunRow, link: Link)
    requires LegalLink(prev, link) && link.tx.CompleteAudioTx?
    ensures prev.state == TranscriptionPending && prev.claimedAt.Some? && link.run.state == DraftingPending
  {
    hide Joint, BookkeepingOk, InputOk, Pow2;
  }

  /** Each stay in transcription has at most one committed completion. */
  lemma OneCompletionPerStay(origin: RunRow, chain: seq<Link>, i: nat, j: nat)
    requires LegalChain(origin, chain) && i < j < |chain|
    requires chain[i].tx.CompleteAudioTx? && chain[j].tx.CompleteAudioTx?
    ensures EnteredIn(origin, chain, i + 1, j, TranscriptionPending)
  {
    hide LegalLink;
    LinkAt(origin, chain, i);
    LinkAt(origin, chain, j);
    CompletionLink(RowAt(origin, chain, i), chain[i]);
    CompletionLink(RowAt(origin, chain, j), chain[j]);
    var k := EntersBetween(origin, chain, i + 1, j, TranscriptionPending);
  }

  lemma ClaimLink(prev: RunRow, link: Link)
    requires LegalLink(prev, link) && link.tx.ClaimDraftTx?
    ensures prev.state == DraftingPending && prev.claimedAt.None? && HeldForDrafting(link.run)
  {
    hide Joint, BookkeepingOk, InputOk, Pow2;
  }

  /** A claimed drafting run is only ever moved on by persisting, which ends the stay. */
  lemma HeldLink(prev: RunRow, link: Link)
    requires LegalLink(prev, link) && HeldForDrafting(prev)
    ensures link.tx.PersistTx? && (link.run.state == ReviewPending || link.run.state == Failed)
  {
    hide Joint, BookkeepingOk, InputOk, Pow2;
  }

  /** A claimed drafting row was written by a drafting claim. */
  lemma HeldByClaim(prev: RunRow, link: Link)
    requires LegalLink(prev, link) && HeldForDrafting(link.run)
    ensures link.tx.ClaimDraftTx?
  {
    hide Joint, InputOk, Pow2;
  }

  /** At most one drafting claim commits per entry into drafting. */
  lemma OneClaimPerDrafting(origin: RunRow, chain: seq<Link>, i: nat, j: nat)
    requires LegalChain(origin, chain) && i < j < |chain|
    requires chain[i].tx.ClaimDraftTx? && chain[j].tx.ClaimDraftTx?
    ensures EnteredIn(origin, chain, i + 1, j, DraftingPending)
  {
    hide LegalLink;
    LinkAt(origin, chain, i);
    LinkAt(origin, chain, i + 1);
    LinkAt(origin, chain, j);
    ClaimLink(RowAt(origin, chain, i), chain[i]);
    ClaimLink(RowAt(origin, chain, j), chain[j]);
    HeldLink(RowAt(origin, chain, i + 1), chain[i + 1]);
    var k := EntersBetween(origin, chain, i + 2, j, DraftingPending);
  }

  lemma FailedLink(prev: RunRow, link: Link)
    requires LegalLink(prev, link) && link.run.state == Failed
    ensures HeldForDrafting(prev) && link.tx.PersistTx? && link.tx.analysis.GaveUp?
  {
    hide Joint, InputOk, Pow2;
  }

  /** FAILED is reached only by a claim holder giving up, although the aggregate's `fail` is unguarded. */
  lemma FailedOnlyFromDrafting(origin: RunRow, chain: seq<Link>, i: nat)
    requires LegalChain(origin, chain) && i < |chain|
    requires chain[i].run.state == Failed
    ensures HeldForDrafting(RowAt(origin, chain, i))
    ensures chain[i].tx.PersistTx? && chain[i].tx.analysis.GaveUp?
  {
    hide LegalLink;
    LinkAt(origin, chain, i);
    FailedLink(RowAt(origin, chain, i), chain[i]);
  }

  lemma CompletedHasNoSuccessor(prev: RunRow, link: Link)
    requires LegalLink(prev, link)
    ensures prev.state != Completed
  {
    hide InputOk, Pow2;
  }

  /** COMPLETED is absorbing: it can only be the last row. */
  lemma CompletedIsLast(origin: RunRow, chain: seq<Link>, i: nat)
    requires LegalChain(origin, chain) && i <= |chain|
    requires RowAt(origin, chain, i).state == Completed
    ensures i == |chain|
  {
    hide LegalLink;
    if i < |chain| {
      LinkAt(origin, chain, i);
      CompletedHasNoSuccessor(RowAt(origin, chain, i), chain[i]);
    }
  }

  // ----- Leases -----

  predicate WritesClaim(tx: Tx) {
    tx.ClaimAudioTx? || tx.HeartbeatTx?
  }

  lemma LeaseLink(prev: RunRow, link: Link)
    requires LegalLink(prev, link) && prev.state == TranscriptionPending && prev.claimedAt.Some?
    ensures link.tx.ClaimAudioTx? ==> prev.claimedAt.value + CLAIM_LEASE_SECONDS * SECOND <= link.tx.now <= link.at
    ensures link.run.claimedAt.Some? ==> WritesClaim(link.tx)
  {
    hide Joint, InputOk, Pow2;
  }

  lemma ClaimWritten(prev: RunRow, link: Link)
    requires LegalLink(prev, link) && WritesClaim(link.tx)
    ensures link.run.state == TranscriptionPending && link.run.claimedAt == Some(link.tx.now)
  {
    hide Joint, BookkeepingOk, InputOk, Pow2;
  }

  /**
   Lease exclusion. If a transcription claim commits while the previous claim or heartbeat
   has not been released, at least the lease has passed since that one's clock reading.
   */
  lemma LeaseExclusion(origin: RunRow, chain: seq<Link>, i: nat, j: nat)
    requires LegalChain(origin, chain) && i < j < |chain|
    requires WritesClaim(chain[i].tx) && chain[j].tx.ClaimAudioTx?
    requires forall k :: i < k < j ==> !WritesClaim(chain[k].tx)
    requires forall k :: i < k <= j ==> RowAt(origin, chain, k).claimedAt.Some?
    ensures chain[i].tx.now + CLAIM_LEASE_SECONDS * SECOND <= chain[j].tx.now <= chain[j].at
  {
    hide LegalLink;
    LinkAt(origin, chain, i);
    LinkAt(origin, chain, i + 1);
    ClaimWritten(RowAt(origin, chain, i), chain[i]);
    LeaseLink(RowAt(origin, chain, i + 1), chain[i + 1]);
  }

  lemma RetryLink(prev: RunRow, link: Link)
    requires LegalLink(prev, link)
    ensures link.tx.ClaimAudioTx? && prev.nextRetryAt.Some? ==> prev.nextRetryAt.value <= link.tx.now
    ensures link.tx.FailAudioTx? ==>
              && prev.attempt < 3 && link.run.attempt == prev.attempt + 1
              && link.run.lastError == Some(link.tx.code)
              && (prev.attempt == 0 ==> link.run.nextRetryAt == Some(link.tx.finishedAt + 2 * SECOND))
              && (prev.attempt == 1 ==> link.run.nextRetryAt == Some(link.tx.finishedAt + 4 * SECOND))
              && (prev.attempt == 2 <==> link.run.state == ManualInputRequired)
  {
    hide Joint, InputOk;
    assert Pow2(1) == 2 && Pow2(2) == 4;
  }

  /** A retry is not claimed before it is due, and the first two failures schedule one 2 and then 4 seconds later. */
  lemma RetrySchedule(origin: RunRow, chain: seq<Link>, i: nat)
    requires LegalChain(origin, chain) && i < |chain|
    ensures chain[i].tx.ClaimAudioTx? && RowAt(origin, chain, i).nextRetryAt.Some? ==>
              RowAt(origin, chain, i).nextRetryAt.value <= chain[i].tx.now
    ensures chain[i].tx.FailAudioTx? ==>
              var failures := RowAt(origin, chain, i).attempt + 1;
              && 1 <= failures <= 3 && chain[i].run.attempt == failures
              && chain[i].run.lastError == Some(chain[i].tx.code)
              && (failures == 1 ==> chain[i].run.nextRetryAt == Some(chain[i].tx.finishedAt + 2 * SECOND))
              && (failures == 2 ==> chain[i].run.nextRetryAt == Some(chain[i].tx.finishedAt + 4 * SECOND))
              && (failures == 3 <==> chain[i].run.state == ManualInputRequired)
  {
    hide LegalLink;
    LinkAt(origin, chain, i);
    RetryLink(RowAt(origin, chain, i), chain[i]);
  }

  lemma EntryLink(prev: RunRow, link: Link)
    requires LegalLink(prev, link) && Enters(prev, link.run)
    ensures Awaiting(link.run) && link.run.claimedAt.None?
  {
    hide Joint, InputOk, Pow2;
  }

  /** Whatever enters a worker's state, or schedules a retry of it, leaves it unclaimed for the dispatched worker. */
  lemma EntriesAreUnclaimed(origin: RunRow, chain: seq<Link>, i: nat)
    requires LegalChain(origin, chain) && i < |chain|
    requires Enters(RowAt(origin, chain, i), chain[i].run)
    ensures Awaiting(chain[i].run) && chain[i].run.claimedAt.None?
  {
    hide LegalLink;
    LinkAt(origin, chain, i);
    EntryLink(RowAt(origin, chain, i), chain[i]);
  }

  // ----- Termination measure -----

  /** How many worker steps can still conclude before a person has to act. */
  function Measure(run: RunRow): nat {
    match run.state
    case TranscriptionPending => if run.attempt < 3 then 4 - run.attempt else 0
    case DraftingPending => 1
    case PdfPending => 1
    case _ => 0
  }

  function Concluded(chain: seq<Link>, i: nat, j: nat): nat
    requires i <= j <= |chain|
  {
    if i == j then 0 else Concluded(chain, i, j - 1) + (if Concludes(chain[j - 1].tx) then 1 else 0)
  }

  lemma MeasureLink(prev: RunRow, link: Link)
    requires LegalLink(prev, link) && !ByPerson(link.tx)
    ensures (if Concludes(link.tx) then 1 else 0) + Measure(link.run) <= Measure(prev)
  {
    hide Joint, InputOk, Pow2;
  }

  /** Between two human actions at most four worker steps conclude. */
  lemma {:induction false} AtMostFourOutcomes(origin: RunRow, chain: seq<Link>, i: nat, j: nat)
    requires LegalChain(origin, chain) && i <= j <= |chain|
    requires forall k :: i <= k < j ==> !ByPerson(chain[k].tx)
    ensures Concluded(chain, i, j) + Measure(RowAt(origin, chain, j)) <= Measure(RowAt(origin, chain, i)) <= 4
    decreases j - i
  {
    hide LegalLink;
    if i < j {
      AtMostFourOutcomes(origin, chain, i, j - 1);
      LinkAt(origin, chain, j - 1);
      MeasureLink(RowAt(origin, chain, j - 1), chain[j - 1]);
    }
  }

  // ----- Dispatch counts -----

  /** Committed entries into `state`, plus scheduled retries of it. */
  function Entries(origin: RunRow, chain: seq<Link>, state: WorkflowState): nat {
    if chain == [] then if origin.state == state then 1 else 0
    else
      var prev, row := RowAt(origin, chain, |chain| - 1), chain[|chain| - 1].run;
      Entries(origin, chain[..|chain| - 1], state)
      + (if row.state == state && (prev.state != state || prev.attempt < row.attempt) then 1 else 0)
  }

  function IdsFor(emitted: map<nat, DispatchEvent>, state: WorkflowState): set<nat> {
    set id <- emitted | emitted[id].state == state
  }

  lemma {:induction false} EmittedBelow(origin: RunRow, chain: seq<Link>)
    requires LegalChain(origin, chain)
    ensures forall id <- Emitted(origin, chain) :: id <= RowAt(origin, chain, |chain|).stateVersion
  {
    hide LegalLink, Enters;
    if chain != [] {
      var front := chain[..|chain| - 1];
      assert LegalChain(origin, front) by {
        FrontLegal(origin, chain);
      }
      EmittedBelow(origin, front);
      VersionStep(origin, chain, |chain| - 1);
      assert RowAt(origin, chain, |chain| - 1) == RowAt(origin, front, |front|);
      EventNamedByVersion(chain[|chain| - 1].run);
    }
  }

  lemma FrontLegal(origin: RunRow, chain: seq<Link>)
    requires LegalChain(origin, chain) && chain != []
    ensures LegalChain(origin, chain[..|chain| - 1])
    ensures RowAt(origin, chain, |chain| - 1) == RowAt(origin, chain[..|chain| - 1], |chain| - 1)
  {
    hide LegalLink;
    var front := chain[..|chain| - 1];
    forall i | 0 <= i < |front|
      ensures LegalLink(RowAt(origin, front, i), front[i])
    {
      LinkAt(origin, chain, i);
    }
  }

  /** The dispatch events of a worker-driven state number exactly the committed entries into it and its retries. */
  lemma {:induction false} DispatchesCounted(origin: RunRow, chain: seq<Link>, state: WorkflowState)
    requires LegalChain(origin, chain) && WorkerDriven(origin.state) && WorkerDriven(state)
    ensures |IdsFor(Emitted(origin, chain), state)| == Entries(origin, chain, state)
  {
    hide LegalLink, Emitted;
    if chain == [] {
      CreatedEvent(origin, state);
    } else {
      var n := |chain| - 1;
      var front, row := chain[..n], chain[n].run;
      FrontLegal(origin, chain);
      DispatchesCounted(origin, front, state);
      EmittedBelow(origin, front);
      VersionStep(origin, chain, n);
      assert chain == front + [chain[n]];
      EmittedAppend(origin, front, chain[n]);
      if Enters(RowAt(origin, chain, n), row) {
        IdsAfterEntry(Emitted(origin, front), row, state);
      }
    }
  }

  lemma CreatedEvent(origin: RunRow, state: WorkflowState)
    ensures |IdsFor(Emitted(origin, []), state)| == if origin.state == state then 1 else 0
  {
    var ids := IdsFor(Emitted(origin, []), state);
    assert ids == if origin.state == state then {origin.stateVersion} else {};
  }

  lemma IdsAfterEntry(emitted: map<nat, DispatchEvent>, row: RunRow, state: WorkflowState)
    requires row.stateVersion !in emitted
    ensures |IdsFor(emitted[row.stateVersion := EventOf(row)], state)|
         == |IdsFor(emitted, state)| + (if row.state == state then 1 else 0)
  {
    var before := IdsFor(emitted, state);
    var after := IdsFor(emitted[row.stateVersion := EventOf(row)], state);
    assert after == if row.state == state then before + {row.stateVersion} else before;
  }
}

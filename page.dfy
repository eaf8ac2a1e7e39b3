/**
 * The section tracker of the home page: the fixed table of page phases, and
 * the IntersectionObserver callback that turns a batch of intersection
 * entries into the new active phase and a sequence of `section_view`
 * analytics events.
 */
module Page {
  import opened Wrappers
  import opened Strings

  datatype Phase = Phase(id: int, name: string, title: string)

  /** `PHASES`: the sections of the page, in page order. */
  const Phases: seq<Phase> := [
    Phase(1, "Introduction", "Welcome"),
    Phase(2, "Skills", "Technical Arsenal"),
    Phase(3, "Experience", "Professional Journey"),
    Phase(4, "Featured Project", "Event Management System"),
    Phase(5, "More Projects", "Additional Work"),
    Phase(6, "Education", "Academic Background"),
    Phase(7, "Contact", "Let's Connect")
  ]

  /** The initial value of `activePhase`. */
  const InitialPhase: int := 1

  /** The table numbers its phases 1 to 7 in order, so ids are increasing and
      distinct. */
  lemma PhaseTableWellFormed()
    ensures |Phases| == 7
    ensures forall i :: 0 <= i < |Phases| ==> Phases[i].id == i + 1
    ensures forall i, j :: 0 <= i < j < |Phases| ==> Phases[i].id < Phases[j].id
    ensures exists i :: 0 <= i < |Phases| && Phases[i].id == InitialPhase
  {
    assert Phases[0].id == InitialPhase;
  }

  /** `phases.find(p => p.id === id)`. */
  function Find(phases: seq<Phase>, id: int): Option<Phase>
  {
    if phases == [] then None
    else if phases[0].id == id then Some(phases[0])
    else Find(phases[1..], id)
  }

  /** `Find` returns the first phase with the id, and nothing exactly when no
      phase has it. */
  lemma {:induction false} FindIsFirstMatch(phases: seq<Phase>, id: int)
    ensures Find(phases, id).Some? ==> Find(phases, id).value.id == id
    ensures Find(phases, id).Some? ==>
      exists i :: 0 <= i < |phases| && phases[i] == Find(phases, id).value &&
        (forall j :: 0 <= j < i ==> phases[j].id != id)
    ensures Find(phases, id).None? <==> forall i :: 0 <= i < |phases| ==> phases[i].id != id
  {
    if phases != [] && phases[0].id != id {
      var tail := phases[1..];
      FindIsFirstMatch(tail, id);
      if Find(tail, id).Some? {
        var i :| 0 <= i < |tail| && tail[i] == Find(tail, id).value &&
          (forall j :: 0 <= j < i ==> tail[j].id != id);
        assert phases[i + 1] == Find(phases, id).value;
        forall j | 0 <= j < i + 1 ensures phases[j].id != id {
          if j > 0 { assert phases[j] == tail[j - 1]; }
        }
      } else {
        forall i | 0 <= i < |phases| ensures phases[i].id != id {
          if i > 0 { assert phases[i] == tail[i - 1]; }
        }
      }
    } else if phases != [] {
      assert phases[0] == Find(phases, id).value;
    }
  }

  /** Looking up an id of the table gives the phase with that id and its name. */
  lemma FindInTable(k: nat)
    requires k < |Phases|
    ensures Find(Phases, Phases[k].id) == Some(Phases[k])
  {
    PhaseTableWellFormed();
    FindIsFirstMatch(Phases, Phases[k].id);
  }

  /** The element id prefix of a phase section. */
  const IdPrefix: string := "phase-"

  /** The element id of the section for phase `id`. */
  function ElementId(id: nat): string
  {
    IdPrefix + NatToString(id)
  }

  /** `parseInt(id.replace('phase-', ''), 10)`; `None` is `NaN`. */
  function ParseId(elementId: string): Option<int>
  {
    ParseInt(ReplaceFirst(elementId, IdPrefix, ""))
  }

  /** `"phase-"` followed by a decimal numeral, and then by nothing or a
      non-digit, parses to the numeral's value. */
  lemma ParseIdNumeral(d: string, rest: string)
    requires d != [] && AllDigits(d)
    requires rest == [] || !IsDigit(rest[0])
    ensures ParseId(IdPrefix + d + rest) == Some(DigitsValue(d))
  {
    assert IdPrefix + d + rest == IdPrefix + (d + rest);
    ReplacePrefix(IdPrefix, d + rest);
    ParseIntNumeral(d, rest);
  }

  /** The id of a phase's own element parses back to the phase id. */
  lemma ParseElementId(id: nat)
    ensures ParseId(ElementId(id)) == Some(id)
  {
    ParseIdNumeral(NatToString(id), []);
    assert IdPrefix + NatToString(id) + [] == ElementId(id);
    NatToStringRoundTrip(id);
  }

  /** One IntersectionObserver entry: whether the target intersects, and the
      target element's id. */
  datatype Entry = Entry(isIntersecting: bool, targetId: string)

  /** The `section_view` analytics event: which section was viewed. */
  datatype SectionView = SectionView(sectionId: int, sectionName: string)

  /** The phase id an entry sets as active, if any. */
  function EntryPhase(e: Entry): Option<int>
  {
    if e.isIntersecting then ParseId(e.targetId) else None
  }

  /** The active phase after one entry: its id, if it has one. */
  function StepActive(current: int, e: Entry): int
  {
    match EntryPhase(e)
    case Some(id) => id
    case None => current
  }

  /** The events one entry logs. */
  function EntryLog(e: Entry): (log: seq<SectionView>)
    ensures |log| <= 1
  {
    match EntryPhase(e)
    case None => []
    case Some(id) =>
      match Find(Phases, id)
      case None => []
      case Some(p) => [SectionView(id, p.name)]
  }

  /** The active phase after handling `entries` in order, from `current`. */
  function BatchActive(current: int, entries: seq<Entry>): int
    decreases |entries|
  {
    if entries == [] then current else BatchActive(StepActive(current, entries[0]), entries[1..])
  }

  /** The events logged while handling `entries` in order. */
  function BatchLog(entries: seq<Entry>): seq<SectionView>
  {
    if entries == [] then [] else EntryLog(entries[0]) + BatchLog(entries[1..])
  }

  /** Handling a non-empty batch is handling its first entry, then the rest. */
  lemma BatchUnfold(current: int, entries: seq<Entry>)
    requires entries != []
    ensures BatchActive(current, entries) == BatchActive(StepActive(current, entries[0]), entries[1..])
    ensures BatchLog(entries) == EntryLog(entries[0]) + BatchLog(entries[1..])
  {
  }

  lemma ConcatAssoc<T>(a: seq<T>, b: seq<T>, c: seq<T>)
    ensures (a + b) + c == a + (b + c)
  {
  }

  /** Entry `k` has a numeric phase id and no later entry does. */
  ghost predicate LastNumericAt(entries: seq<Entry>, k: int)
  {
    0 <= k < |entries| && EntryPhase(entries[k]).Some? &&
    forall j :: k < j < |entries| ==> EntryPhase(entries[j]).None?
  }

  /** The batch leaves the active phase at the id of its last intersecting
      entry with a numeric id, and unchanged when there is none. */
  lemma {:induction false} BatchActiveIsLastNumeric(current: int, entries: seq<Entry>)
    decreases |entries|
    ensures (forall k :: 0 <= k < |entries| ==> EntryPhase(entries[k]).None?) ==>
      BatchActive(current, entries) == current
    ensures forall k :: LastNumericAt(entries, k) ==>
      BatchActive(current, entries) == EntryPhase(entries[k]).value
  {
    if entries != [] {
      var tail := entries[1..];
      var next := StepActive(current, entries[0]);
      BatchActiveIsLastNumeric(next, tail);
      assert forall k :: 0 <= k < |tail| ==> tail[k] == entries[k + 1];
      if forall k :: 0 <= k < |entries| ==> EntryPhase(entries[k]).None? {
        assert next == current;
      }
      forall k | LastNumericAt(entries, k)
        ensures BatchActive(current, entries) == EntryPhase(entries[k]).value
      {
        if k == 0 {
          assert forall j :: 0 <= j < |tail| ==> EntryPhase(tail[j]).None?;
        } else {
          assert LastNumericAt(tail, k - 1);
        }
      }
    }
  }

  /** Every logged event names a phase of the table with its own name, and a
      batch logs at most one event per entry. */
  lemma {:induction false} BatchLogNamesTablePhases(entries: seq<Entry>)
    ensures |BatchLog(entries)| <= |entries|
    ensures forall ev :: ev in BatchLog(entries) ==>
      exists i :: 0 <= i < |Phases| && Phases[i].id == ev.sectionId && Phases[i].name == ev.sectionName
  {
    if entries != [] {
      BatchLogNamesTablePhases(entries[1..]);
      var e := entries[0];
      if EntryLog(e) != [] {
        var id := EntryPhase(e).value;
        FindIsFirstMatch(Phases, id);
        assert EntryLog(e) == [SectionView(id, Find(Phases, id).value.name)];
      }
    }
  }

  /** Handling one more entry at the end of a batch. */
  lemma {:induction false} BatchSnoc(current: int, entries: seq<Entry>, e: Entry)
    ensures BatchActive(current, entries + [e]) == StepActive(BatchActive(current, entries), e)
    ensures BatchLog(entries + [e]) == BatchLog(entries) + EntryLog(e)
    decreases |entries|
  {
    if entries == [] {
      assert [e][1..] == [];
    } else {
      assert (entries + [e])[1..] == entries[1..] + [e];
      BatchSnoc(StepActive(current, entries[0]), entries[1..], e);
    }
  }

  /** An entry that does not intersect, or whose id is `NaN`, changes neither
      the active phase nor the log; a numeric id outside the table becomes the
      active phase but logs nothing. */
  lemma IgnoredAndUnknownEntries(current: int, entries: seq<Entry>, e: Entry)
    ensures EntryPhase(e).None? ==>
      BatchActive(current, entries + [e]) == BatchActive(current, entries) &&
      BatchLog(entries + [e]) == BatchLog(entries)
    ensures EntryPhase(e).Some? && Find(Phases, EntryPhase(e).value).None? ==>
      BatchActive(current, entries + [e]) == EntryPhase(e).value &&
      BatchLog(entries + [e]) == BatchLog(entries)
  {
    BatchSnoc(current, entries, e);
  }

  /** An entry for the element of a table phase. */
  predicate IsObserved(e: Entry)
  {
    exists p :: p in Phases && p.id >= 0 && e.targetId == ElementId(p.id)
  }

  /** An observed entry yields a table id exactly when it intersects, and then
      logs one event for that phase under its name. */
  lemma ObservedEntry(e: Entry)
    requires IsObserved(e)
    ensures EntryPhase(e).Some? <==> e.isIntersecting
    ensures EntryPhase(e).Some? ==>
      var id := EntryPhase(e).value;
      1 <= id <= |Phases| && EntryLog(e) == [SectionView(id, Phases[id - 1].name)]
  {
    var p :| p in Phases && p.id >= 0 && e.targetId == ElementId(p.id);
    PhaseTableWellFormed();
    ParseElementId(p.id);
    if e.isIntersecting {
      FindInTable(p.id - 1);
    }
  }

  /** The entries that intersect. */
  function Intersecting(entries: seq<Entry>): seq<Entry>
  {
    if entries == [] then []
    else (if entries[0].isIntersecting then [entries[0]] else []) + Intersecting(entries[1..])
  }

  /** The event names a table phase under that phase's own name. */
  ghost predicate NamesTablePhase(ev: SectionView)
  {
    1 <= ev.sectionId <= |Phases| && ev.sectionName == Phases[ev.sectionId - 1].name
  }

  /** The `k`-th event names a table phase and is the one the `k`-th entry's
      element id parses to, for every `k`. */
  ghost predicate LogMatches(log: seq<SectionView>, hits: seq<Entry>)
  {
    |log| == |hits| &&
    forall k :: 0 <= k < |log| ==>
      NamesTablePhase(log[k]) && ParseId(hits[k].targetId) == Some(log[k].sectionId)
  }

  lemma LogMatchesConcat(log1: seq<SectionView>, hits1: seq<Entry>, log2: seq<SectionView>, hits2: seq<Entry>)
    requires LogMatches(log1, hits1) && LogMatches(log2, hits2)
    ensures LogMatches(log1 + log2, hits1 + hits2)
  {
    forall k | 0 <= k < |log1 + log2|
      ensures NamesTablePhase((log1 + log2)[k]) &&
        ParseId((hits1 + hits2)[k].targetId) == Some((log1 + log2)[k].sectionId)
    {
      if k >= |log1| {
        assert (log1 + log2)[k] == log2[k - |log1|];
        assert (hits1 + hits2)[k] == hits2[k - |log1|];
      }
    }
  }

  /** Only the elements of the seven table phases are observed. For entries on
      those, the active phase stays a table id, and the log holds one event per
      intersecting entry, in order, naming that entry's phase. */
  lemma {:induction false} ObservedBatch(current: int, entries: seq<Entry>)
    requires 1 <= current <= |Phases|
    requires forall k :: 0 <= k < |entries| ==> IsObserved(entries[k])
    ensures 1 <= BatchActive(current, entries) <= |Phases|
    ensures LogMatches(BatchLog(entries), Intersecting(entries))
    decreases |entries|
  {
    if entries != [] {
      var e := entries[0];
      var tail := entries[1..];
      assert forall k :: 0 <= k < |tail| ==> tail[k] == entries[k + 1];
      ObservedEntry(e);
      ObservedBatch(StepActive(current, e), tail);
      var hits := if e.isIntersecting then [e] else [];
      assert LogMatches(EntryLog(e), hits);
      LogMatchesConcat(EntryLog(e), hits, BatchLog(tail), Intersecting(tail));
    }
  }

  /** An element id outside the table still becomes the active phase. */
  lemma UnknownPhaseBecomesActive()
    ensures BatchActive(InitialPhase, [Entry(true, ElementId(9))]) == 9
    ensures BatchLog([Entry(true, ElementId(9))]) == []
  {
    ParseElementId(9);
    assert Find(Phases, 9).None?;
  }

  /** The page's tracker state: `activePhase` and the analytics events sent
      so far. */
  class Home {
    var activePhase: int
    var log: seq<SectionView>

    constructor ()
      ensures activePhase == InitialPhase && log == []
    {
      activePhase := InitialPhase;
      log := [];
    }

    /** The callback's handling of one entry (the body of its `forEach`). */
    method HandleEntry(entry: Entry)
      modifies this
      ensures activePhase == StepActive(old(activePhase), entry)
      ensures log == old(log) + EntryLog(entry)
    {
      if entry.isIntersecting {
        var phaseId := ParseId(entry.targetId);
        if phaseId.Some? {
          activePhase := phaseId.value;
          var phase := Find(Phases, phaseId.value);
          if phase.Some? {
            log := log + [SectionView(phaseId.value, phase.value.name)];
          }
        }
      }
    }

    /** The IntersectionObserver callback, applied to one batch of entries. */
    method OnIntersect(entries: seq<Entry>)
      modifies this
      ensures activePhase == BatchActive(old(activePhase), entries)
      ensures log == old(log) + BatchLog(entries)
    {
      var i := 0;
      while i < |entries|
        invariant 0 <= i <= |entries|
        invariant BatchActive(activePhase, entries[i..]) == BatchActive(old(activePhase), entries)
        invariant log + BatchLog(entries[i..]) == old(log) + BatchLog(entries)
      {
        BatchUnfold(activePhase, entries[i..]);
        assert entries[i..][0] == entries[i] && entries[i..][1..] == entries[i + 1..];
        ConcatAssoc(log, EntryLog(entries[i]), BatchLog(entries[i + 1..]));
        HandleEntry(entries[i]);
        i := i + 1;
      }
    }
  }
}

/** What the main thread does in `run_step` (generator/src/loadgen.py, lines 153 to 213), event by event. */
module PacerEvents {

  /** Where the main thread is in `run_step`. */
  datatype Place = AtGuard | InTurn | Holding | InPut | GivingUp | Queued | Counted | Gone

  /** What it does there. */
  datatype Event = Enter | Wait | Leave | Allocate | Try | Full | Put | GiveUp | RollBack | Offer | Note(aborted: bool)

  /** Its place, `_next_seq`, the step's offered count, the batches put, and the range it holds. */
  datatype Mark = Mark(place: Place, nextSeq: int, offered: int, sent: nat, start: int)

  /** An event that does not belong to the place changes nothing. */
  function Next(batch: nat, m: Mark, e: Event): Mark {
    match e
    case Enter => if m.place.AtGuard? then m.(place := InTurn) else m
    case Wait => if m.place.InTurn? then m.(place := AtGuard) else m
    case Leave => if m.place.AtGuard? || m.place.InTurn? then m.(place := Gone) else m
    case Allocate =>
      if m.place.InTurn? then m.(place := Holding, start := m.nextSeq, nextSeq := m.nextSeq + batch) else m
    case Try => if m.place.Holding? then m.(place := InPut) else m
    case Full => if m.place.InPut? then m.(place := Holding) else m
    case Put => if m.place.InPut? then m.(place := Queued, sent := m.sent + 1) else m
    case GiveUp => if m.place.Holding? then m.(place := GivingUp) else m
    case RollBack =>
      if m.place.GivingUp? then
        m.(place := Gone, nextSeq := if m.nextSeq == m.start + batch then m.start else m.nextSeq)
      else m
    case Offer => if m.place.Queued? then m.(place := Counted) else m
    case Note(aborted) =>
      if m.place.Counted? then m.(place := if aborted then Gone else AtGuard, offered := m.offered + batch) else m
  }

  function After(batch: nat, m: Mark, log: seq<Event>): Mark {
    if log == [] then m else Next(batch, After(batch, m, log[..|log| - 1]), log[|log| - 1])
  }

  lemma {:induction false} AfterConcat(batch: nat, m: Mark, a: seq<Event>, b: seq<Event>)
    ensures After(batch, m, a + b) == After(batch, After(batch, m, a), b)
  {
    if b == [] {
      assert a + b == a;
    } else {
      var n := |b| - 1;
      assert (a + b)[..|a| + n] == a + b[..n];
      AfterConcat(batch, m, a, b[..n]);
    }
  }

  lemma {:induction false} AfterOne(batch: nat, m: Mark, log: seq<Event>, e: Event)
    ensures After(batch, m, log + [e]) == Next(batch, After(batch, m, log), e)
  {
    assert (log + [e])[..|log|] == log;
  }

  lemma {:induction false} AfterJust(batch: nat, m: Mark, e: Event)
    ensures After(batch, m, [e]) == Next(batch, m, e)
  {
    AfterOne(batch, m, [], e);
    assert [] + [e] == [e];
  }

  lemma {:induction false} AfterTwo(batch: nat, m: Mark, d: Event, e: Event)
    ensures After(batch, m, [d, e]) == Next(batch, Next(batch, m, d), e)
  {
    AfterJust(batch, m, d);
    AfterOne(batch, m, [d], e);
    assert [d] + [e] == [d, e];
  }

  lemma {:induction false} AfterFirst(batch: nat, m: Mark, e: Event, log: seq<Event>)
    ensures After(batch, m, [e] + log) == After(batch, Next(batch, m, e), log)
  {
    AfterConcat(batch, m, [e], log);
    AfterJust(batch, m, e);
  }

  /** A batch that was put is counted, and the turn ends. */
  lemma {:induction false} AfterBooked(batch: nat, m: Mark, log: seq<Event>, put: Mark, aborted: bool)
    requires After(batch, m, log) == put && put.place == Queued
    ensures After(batch, m, log + [Offer, Note(aborted)]) ==
      put.(place := if aborted then Gone else AtGuard, offered := put.offered + batch)
  {
    AfterConcat(batch, m, log, [Offer, Note(aborted)]);
    AfterTwo(batch, put, Offer, Note(aborted));
  }
}

/** Request templates (generator/src/payload.py and generator/src/payload_ai_txn.py):
    stamping in place, and the arithmetic that gives every worker its own slice of the pool. */
module Payload {
  import opened Basics

  /** Which payload factory the run uses. */
  datatype Schema = Logs | AiTxn

  /** The mutable sequence fields of one record. `snx` exists only in the ai_txn payload. */
  datatype Slot = Slot(bench: int, snx: int)

  /** One iteration of the loop in `stamp`: the generic payload writes bench.seq, the ai_txn
      payload writes bench.seq and snx.sequence_id. */
  function StampSlot(schema: Schema, slot: Slot, s: int): Slot {
    if schema.AiTxn? then Slot(s, s) else slot.(bench := s)
  }

  predicate SlotIs(schema: Schema, slot: Slot, s: int) {
    slot.bench == s && (schema.AiTxn? ==> slot.snx == s)
  }

  /** The first `upto` records of a template carry first, first + 1, ... on every handle. */
  ghost predicate Carries(schema: Schema, slots: seq<Slot>, first: int, upto: nat) {
    upto <= |slots| && forall j :: 0 <= j < upto ==> SlotIs(schema, slots[j], first + j)
  }

  /** What `stamp` leaves in a template. */
  function Stamped(schema: Schema, slots: seq<Slot>, first: int): seq<Slot> {
    seq(|slots|, j requires 0 <= j < |slots| => StampSlot(schema, slots[j], first + j))
  }

  /** Every handle of record j carries first + j, and the handles the payload does not have are left alone. */
  lemma StampedCarries(schema: Schema, slots: seq<Slot>, first: int)
    ensures Carries(schema, Stamped(schema, slots, first), first, |slots|)
    ensures schema.Logs? ==> forall j :: 0 <= j < |slots| ==> Stamped(schema, slots, first)[j].snx == slots[j].snx
  {
  }

  /** `template_for`: the position in the pool of worker w's private template. */
  function TemplateIndex(workers: nat, variants: nat, w: nat, variant: nat): nat
    requires workers > 0 && variants > 0
  {
    (w % workers) * variants + variant % variants
  }

  lemma TemplateIndexInPool(workers: nat, variants: nat, w: nat, variant: nat)
    requires workers > 0 && variants > 0
    ensures TemplateIndex(workers, variants, w, variant) < workers * variants
  {
    assert (w % workers) * variants <= (workers - 1) * variants;
  }

  /** Worker w's templates are the block of `variants` at position w, one after the other. */
  lemma TemplateIndexIs(workers: nat, variants: nat, w: nat, variant: nat)
    requires w < workers && variants > 0
    ensures w * variants <= TemplateIndex(workers, variants, w, variant) < (w + 1) * variants
    ensures variant < variants ==> TemplateIndex(workers, variants, w, variant) - w * variants == variant
    ensures TemplateIndex(workers, variants, w, variant + variants) == TemplateIndex(workers, variants, w, variant)
  {
    SmallMod(w, workers);
    assert (w + 1) * variants == w * variants + variants;
    SameRemainder(variant, variants);
    if variant < variants {
      SmallMod(variant, variants);
    }
  }

  lemma SameRemainder(x: nat, m: nat)
    requires m > 0
    ensures (x + m) % m == x % m
  {
    var q, r := x / m, x % m;
    assert x == q * m + r && x + m == (q + 1) * m + r;
    DigitsUnique((x + m) / m, (x + m) % m, q + 1, r, m);
  }

  /** Ownership: two workers never reach the same template, and one worker reaches the same
      template twice only through the same variant. */
  lemma TemplateIndexInjective(workers: nat, variants: nat, w: nat, v: nat, w': nat, v': nat)
    requires variants > 0 && w < workers && w' < workers
    ensures TemplateIndex(workers, variants, w, v) == TemplateIndex(workers, variants, w', v')
       <==> w == w' && v % variants == v' % variants
  {
    SmallMod(w, workers);
    SmallMod(w', workers);
    DigitsUnique(w, v % variants, w', v' % variants, variants);
  }

  lemma SmallMod(x: nat, m: nat)
    requires x < m
    ensures x % m == x
  {
  }

  /** A number written as q * base + r with r < base determines q and r. */
  lemma DigitsUnique(q: nat, r: nat, q': nat, r': nat, base: nat)
    requires r < base && r' < base
    ensures q * base + r == q' * base + r' <==> q == q' && r == r'
  {
    if q < q' {
      assert (q + 1) * base <= q' * base;
    } else if q' < q {
      assert (q' + 1) * base <= q * base;
    }
  }

  /** One prebuilt export request; `slots` are the handles captured when it was built. */
  class RequestTemplate {
    const schema: Schema
    const slots: array<Slot>

    constructor (schema: Schema, recordCount: nat)
      ensures fresh(slots) && slots.Length == recordCount && this.schema == schema
      ensures forall j :: 0 <= j < recordCount ==> slots[j] == Slot(0, 0)
    {
      this.schema := schema;
      slots := new Slot[recordCount](_ => Slot(0, 0));
    }

    /** `stamp`: give the records a contiguous range, return the next free number. */
    method Stamp(firstSeq: int) returns (next: int)
      modifies slots
      ensures next == firstSeq + slots.Length
      ensures slots[..] == Stamped(schema, old(slots[..]), firstSeq)
      ensures Carries(schema, slots[..], firstSeq, slots.Length)
    {
      next := firstSeq;
      for i := 0 to slots.Length
        invariant next == firstSeq + i
        invariant forall j :: 0 <= j < i ==> slots[j] == StampSlot(schema, old(slots[j]), firstSeq + j)
        invariant forall j :: i <= j < slots.Length ==> slots[j] == old(slots[j])
      {
        slots[i] := StampSlot(schema, slots[i], next);
        next := next + 1;
      }
      assert slots[..] == Stamped(schema, old(slots[..]), firstSeq);
      StampedCarries(schema, old(slots[..]), firstSeq);
    }
  }

  /** The pool, partitioned by worker. */
  class PayloadFactory {
    const schema: Schema
    const workers: nat
    const variants: nat
    const batch: nat
    var templates: seq<RequestTemplate>

    /** Every template is a separate request: no two share a record. */
    ghost predicate Valid()
      reads this
    {
      && workers > 0 && variants > 0
      && |templates| == workers * variants
      && (forall i :: 0 <= i < |templates| ==> templates[i].schema == schema && templates[i].slots.Length == batch)
      && (forall i, j :: 0 <= i < j < |templates| ==> templates[i].slots != templates[j].slots)
    }

    constructor (schema: Schema, batch: nat, workers: int, variantsPerWorker: int)
      ensures Valid() && this.schema == schema && this.batch == batch
      ensures this.workers == Max(1, workers) && this.variants == Max(1, variantsPerWorker)
      ensures forall i :: 0 <= i < |templates| ==> fresh(templates[i].slots)
    {
      this.schema, this.batch := schema, batch;
      this.workers, this.variants := Max(1, workers), Max(1, variantsPerWorker);
      templates := [];
      new;
      BuildPool();
    }

    method BuildPool()
      requires templates == [] && workers > 0 && variants > 0
      modifies this
      ensures Valid()
      ensures forall i :: 0 <= i < |templates| ==> fresh(templates[i].slots)
    {
      for i := 0 to workers * variants
        invariant |templates| == i
        invariant forall j :: 0 <= j < i ==>
          fresh(templates[j].slots) && templates[j].schema == schema && templates[j].slots.Length == batch
        invariant forall j, k :: 0 <= j < k < i ==> templates[j].slots != templates[k].slots
      {
        var t := new RequestTemplate(schema, batch);
        templates := templates + [t];
      }
    }

    ghost function Buffers(): set<array<Slot>>
      reads this
    {
      set t | t in templates :: t.slots
    }

    /** What every template holds. */
    ghost function Pool(): seq<seq<Slot>>
      reads this, Buffers()
    {
      seq(|templates|, i requires 0 <= i < |templates| reads this, Buffers() => templates[i].slots[..])
    }

    function TemplateFor(w: nat, variant: nat): (t: RequestTemplate)
      requires Valid()
      reads this
      ensures TemplateIndex(workers, variants, w, variant) < |templates|
      ensures t == templates[TemplateIndex(workers, variants, w, variant)]
    {
      TemplateIndexInPool(workers, variants, w, variant);
      templates[TemplateIndex(workers, variants, w, variant)]
    }

    /** Stamping through one worker's handle leaves every template of every other worker alone. */
    method StampFor(w: nat, variant: nat, firstSeq: int) returns (next: int)
      requires Valid() && w < workers
      modifies TemplateFor(w, variant).slots
      ensures next == firstSeq + batch
      ensures var t := TemplateIndex(workers, variants, w, variant);
              Pool() == old(Pool())[t := Stamped(schema, old(Pool())[t], firstSeq)]
      ensures Carries(schema, TemplateFor(w, variant).slots[..], firstSeq, batch)
      ensures forall w': nat, v': nat :: w' < workers && !(w' == w && v' % variants == variant % variants) ==>
        TemplateFor(w', v').slots[..] == old(TemplateFor(w', v').slots[..])
    {
      next := TemplateFor(w, variant).Stamp(firstSeq);
      forall w': nat, v': nat | w' < workers && !(w' == w && v' % variants == variant % variants)
        ensures TemplateFor(w', v').slots != TemplateFor(w, variant).slots
      {
        TemplateIndexInjective(workers, variants, w, variant, w', v');
        TemplateIndexInPool(workers, variants, w, variant);
        TemplateIndexInPool(workers, variants, w', v');
      }
    }
  }
}

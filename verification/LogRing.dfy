/** The in-memory log: a ring of entries bounded both by count and by encoded bytes. */
module LogRing {
  import opened Text

  const MAX_STORE_BYTES := 8 * 1024 * 1024

  datatype Entry = Entry(time: int, source: string, level: string, message: string, fields: map<string, string>)

  /** What an unused slot holds. */
  const EMPTY := Entry(0, "", "", "", map[])

  /** An accepted entry together with the length of its encoding. */
  datatype Stored = Stored(entry: Entry, size: nat)

  function Total(log: seq<Stored>): nat {
    if log == [] then 0 else log[0].size + Total(log[1..])
  }

  predicate Fits(log: seq<Stored>, limit: nat, byteLimit: nat) {
    |log| <= limit && Total(log) <= byteLimit
  }

  /** The longest suffix of the log within both bounds. */
  function Retained(log: seq<Stored>, limit: nat, byteLimit: nat): seq<Stored> {
    if Fits(log, limit, byteLimit) then log else Retained(log[1..], limit, byteLimit)
  }

  /** Retained is a suffix within both bounds, and no suffix within both bounds is longer: one more entry would be more
      than the limit or exceed the bytes. */
  lemma {:induction false} LongestSuffix(log: seq<Stored>, limit: nat, byteLimit: nat, from: nat)
    requires from <= |log|
    ensures var kept := Retained(log, limit, byteLimit);
            && |kept| <= limit && Total(kept) <= byteLimit
            && |kept| <= |log| && kept == log[|log| - |kept|..]
            && (|log| - from > |kept| ==> |log| - from > limit || Total(log[from..]) > byteLimit)
  {
    if !Fits(log, limit, byteLimit) {
      LongestSuffix(log[1..], limit, byteLimit, if from > 0 then from - 1 else 0);
      if from > 0 {
        assert log[1..][from - 1..] == log[from..];
      } else {
        assert log[from..] == log;
      }
    }
  }

  lemma {:induction false} TotalAppend(log: seq<Stored>, last: Stored)
    ensures Total(log + [last]) == Total(log) + last.size
  {
    if log != [] {
      assert (log + [last])[1..] == log[1..] + [last];
      TotalAppend(log[1..], last);
    }
  }

  /** Keeping the newest entries one arrival at a time loses nothing against keeping them at the end. */
  lemma {:induction false} RetainedIncrementally(log: seq<Stored>, last: Stored, limit: nat, byteLimit: nat)
    ensures Retained(log + [last], limit, byteLimit)
         == Retained(Retained(log, limit, byteLimit) + [last], limit, byteLimit)
  {
    if !Fits(log, limit, byteLimit) {
      TotalAppend(log, last);
      assert (log + [last])[1..] == log[1..] + [last];
      RetainedIncrementally(log[1..], last, limit, byteLimit);
    }
  }

  lemma OverfullDropsOldest(log: seq<Stored>, last: Stored, limit: nat, byteLimit: nat)
    requires log != [] && (|log| >= limit || Total(log) + last.size > byteLimit)
    ensures Retained(log + [last], limit, byteLimit) == Retained(log[1..] + [last], limit, byteLimit)
  {
    TotalAppend(log, last);
    assert (log + [last])[1..] == log[1..] + [last];
  }

  lemma AllFits(log: seq<Stored>, last: Stored, limit: nat, byteLimit: nat)
    requires |log| < limit && Total(log) + last.size <= byteLimit
    ensures Retained(log + [last], limit, byteLimit) == log + [last]
  {
    TotalAppend(log, last);
  }

  /** Reduces a position to its slot in the ring. */
  method Wrap(x: nat, limit: nat) returns (slot: nat)
    requires 0 < limit && x < 3 * limit
    ensures slot == if x < limit then x else if x < 2 * limit then x - limit else x - 2 * limit
  {
    slot := x % limit;
    assert x == (x / limit) * limit + slot;
    assert x / limit < 3;
  }

  class Store {
    const limit: nat
    const byteLimit: nat
    const encodedSize: Entry -> Option<nat>
    var entries: array<Entry>
    var sizes: array<nat>
    var start: nat
    var count: nat
    var storedBytes: nat
    ghost var accepted: seq<Stored>

    ghost predicate Valid()
      reads this, entries, sizes
    {
      Laid() && Cleared() && Live() == Retained(accepted, limit, byteLimit)
    }

    ghost predicate Laid()
      reads this, entries, sizes
    {
      && 0 < limit == entries.Length == sizes.Length
      && start < limit && count <= limit
      && storedBytes == Total(Live())
    }

    /** Evicted entries are gone: a slot outside the live part is empty. */
    ghost predicate Cleared()
      requires limit == entries.Length == sizes.Length
      reads this, entries, sizes
    {
      forall k :: 0 <= k < limit && !InUse(k) ==> entries[k] == EMPTY && sizes[k] == 0
    }

    predicate InUse(k: nat)
      reads this`start, this`count
    {
      if k >= start then k - start < count else k + limit - start < count
    }

    function Slot(i: nat): nat
      requires start < limit && i < limit
      reads this`start
    {
      if start + i < limit then start + i else start + i - limit
    }

    ghost function Live(): (log: seq<Stored>)
      requires limit == entries.Length == sizes.Length && start < limit && count <= limit
      reads this, entries, sizes
      ensures |log| == count
      ensures forall i :: 0 <= i < count ==> log[i] == Stored(entries[Slot(i)], sizes[Slot(i)])
    {
      var all, bytes, first, size, cap := entries[..], sizes[..], start, count, limit;
      seq(size, i requires 0 <= i < size =>
        var k := if first + i < cap then first + i else first + i - cap;
        Stored(all[k], bytes[k]))
    }

    constructor (limit: int, encodedSize: Entry -> Option<nat>)
      ensures Valid() && accepted == [] && fresh(entries) && fresh(sizes)
      ensures this.limit == if limit <= 0 then 1000 else limit
      ensures byteLimit == 8388608 && this.encodedSize == encodedSize
    {
      var capacity := if limit <= 0 then 1000 else limit;
      this.limit := capacity;
      byteLimit := MAX_STORE_BYTES;
      this.encodedSize := encodedSize;
      entries := new Entry[capacity](_ => EMPTY);
      sizes := new nat[capacity](_ => 0);
      start, count, storedBytes := 0, 0, 0;
      accepted := [];
    }

    static function Normalize(entry: Entry, now: int): Entry {
      var level := Lower(TrimSpace(entry.level));
      entry.(time := if entry.time == 0 then now else entry.time,
      level := if level == "" then "info" else level,
      source := TrimSpace(entry.source),
      message := TrimSpace(entry.message))
    }

    /** What the log accepts of an entry: nothing when it cannot be encoded or is too long to keep. */
    function Admit(entry: Entry, now: int): (log: seq<Stored>)
      ensures |log| <= 1 && forall stored <- log :: stored.size <= byteLimit
    {
      var normalized := Normalize(entry, now);
      match encodedSize(normalized)
      case None => []
      case Some(size) => if size > byteLimit then [] else [Stored(normalized, size)]
    }

    /** An entry as it is kept: dated, with a level, its texts trimmed and its fields as given. */
    static predicate KeptAs(entry: Entry, now: int, kept: Entry) {
      && kept.time == (if entry.time == 0 then now else entry.time)
      && kept.level == (if TrimSpace(entry.level) == "" then "info" else Lower(TrimSpace(entry.level)))
      && kept.source == TrimSpace(entry.source) && kept.message == TrimSpace(entry.message)
      && kept.fields == entry.fields
    }

    lemma AdmittedAsKept(entry: Entry, now: int)
      ensures KeptAs(entry, now, Normalize(entry, now))
      ensures forall kept :: KeptAs(entry, now, kept) ==> kept == Normalize(entry, now)
    {
      hide TrimSpace;
    }

    method Add(entry: Entry, now: int)
      requires Valid()
      modifies this, entries, sizes
      ensures Valid() && entries == old(entries) && sizes == old(sizes)
      ensures accepted == old(accepted) + Admit(entry, now)
      ensures forall kept | KeptAs(entry, now, kept) ::
                match encodedSize(kept)
                case Some(size) => accepted == if size > byteLimit then old(accepted)
                                               else old(accepted) + [Stored(kept, size)]
                case None => accepted == old(accepted)
    {
      hide KeptAs, Normalize;
      AdmittedAsKept(entry, now);
      var admitted := Admit(entry, now);
      if admitted != [] {
        Keep(admitted[0]);
      }
    }

    /** Makes room by dropping the oldest entries, then keeps the new one. */
    method Keep(added: Stored)
      requires Valid() && added.size <= byteLimit
      modifies this, entries, sizes
      ensures Valid() && entries == old(entries) && sizes == old(sizes)
      ensures accepted == old(accepted) + [added]
    {
      RetainedIncrementally(accepted, added, limit, byteLimit);
      while count > 0 && (count == limit || storedBytes + added.size > byteLimit)
        invariant entries == old(entries) && sizes == old(sizes) && accepted == old(accepted)
        invariant Laid() && Cleared()
        invariant Retained(accepted + [added], limit, byteLimit) == Retained(Live() + [added], limit, byteLimit)
        decreases count
      {
        OverfullDropsOldest(Live(), added, limit, byteLimit);
        Evict();
      }
      AllFits(Live(), added, limit, byteLimit);
      Append(added);
      accepted := accepted + [added];
    }

    method Evict()
      requires Laid() && Cleared() && count > 0
      modifies this`start, this`count, this`storedBytes, entries, sizes
      ensures Laid() && Cleared() && Live() == old(Live())[1..]
    {
      ghost var before := Live();
      storedBytes := storedBytes - sizes[start];
      entries[start] := EMPTY;
      sizes[start] := 0;
      start := Wrap(start + 1, limit);
      count := count - 1;
      assert Live() == before[1..];
    }

    method Append(added: Stored)
      requires Laid() && Cleared() && count < limit
      modifies this`count, this`storedBytes, entries, sizes
      ensures Laid() && Cleared() && Live() == old(Live()) + [added]
    {
      hide Total;
      ghost var before := Live();
      TotalAppend(before, added);
      var index := Wrap(start + count, limit);
      assert index == Slot(count);
      entries[index] := added.entry;
      sizes[index] := added.size;
      storedBytes := storedBytes + added.size;
      count := count + 1;
      assert Live() == before + [added];
    }

    /** The newest entries, newest first. */
    method ReadLast(limit: int) returns (newest: seq<Entry>)
      requires Laid()
      ensures |newest| == Min(if limit <= 0 || limit > this.limit then Min(200, this.limit) else limit, count)
      ensures forall i :: 0 <= i < |newest| ==> newest[i] == Live()[count - 1 - i].entry
    {
      hide Total;
      var wanted := if limit <= 0 || limit > this.limit then Min(200, this.limit) else limit;
      if wanted > count {
        wanted := count;
      }
      newest := [];
      ghost var log := Live();
      for offset := 0 to wanted
        invariant |newest| == offset
        invariant forall i :: 0 <= i < offset ==> newest[i] == log[count - 1 - i].entry
      {
        var index := Wrap(start + count - 1 - offset + this.limit, this.limit);
        assert log[count - 1 - offset].entry == entries[Slot(count - 1 - offset)];
        newest := newest + [entries[index]];
      }
    }
  }

  function Min(a: int, b: int): int {
    if a < b then a else b
  }
}

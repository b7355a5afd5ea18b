/** Cuts a byte stream into log lines, however the stream is chunked. */
module LineWriter {
  import opened Text
  import opened LogRing

  const MAX_LINE_BYTES := 64 * 1024

  function Truncated(line: string): string {
    if |line| > MAX_LINE_BYTES then line[..MAX_LINE_BYTES] else line
  }

  /** A line longer than 64 KiB loses what exceeds that. */
  lemma TruncatedMeaning(line: string)
    ensures Truncated(line) <= line && |Truncated(line)| == if |line| > 65536 then 65536 else |line|
  {
  }

  /** The text after the last newline. */
  function Tail(stream: string): string {
    var parts := Split(stream, '\n');
    parts[|parts| - 1]
  }

  /** Every line that a newline has completed, cut to the longest length kept. */
  function Completed(stream: string): (lines: seq<string>)
    ensures |lines| == |Split(stream, '\n')| - 1
  {
    var parts := Split(stream, '\n');
    seq(|parts| - 1, i requires 0 <= i < |parts| - 1 => Truncated(parts[i]))
  }

  lemma AppendPart(stream: string, part: string)
    requires '\n' !in part
    ensures Tail(stream + part) == Tail(stream) + part
    ensures Completed(stream + part) == Completed(stream)
  {
    SplitExtended(stream, part, '\n');
  }

  lemma AppendNewline(stream: string)
    ensures Tail(stream + "\n") == ""
    ensures Completed(stream + "\n") == Completed(stream) + [Truncated(Tail(stream))]
  {
    SplitClosed(stream, '\n');
  }

  method IndexOf(data: string, c: char) returns (index: int)
    ensures index == -1 <==> c !in data
    ensures index != -1 ==> 0 <= index < |data| && data[index] == c && c !in data[..index]
  {
    for i := 0 to |data|
      invariant c !in data[..i]
    {
      if data[i] == c {
        return i;
      }
    }
    return -1;
  }

  lemma CutAt(before: string, data: string, index: nat)
    requires index < |data| && data[index] == '\n'
    ensures before + data == (before + data[..index]) + "\n" + data[index + 1..]
  {
  }

  class Writer {
    const store: Store
    const parse: string -> Entry
    var pending: string
    var dropping: bool
    ghost var stream: string
    ghost var handed: seq<string>

    /** pending, dropping and the lines handed on depend on the stream alone, not on its chunks. */
    ghost predicate Valid()
      reads this, store, store.entries, store.sizes
    {
      && store.Valid()
      && pending == Truncated(Tail(stream))
      && dropping == (|Tail(stream)| > MAX_LINE_BYTES)
      && handed == Completed(stream)
    }

    constructor (store: Store, parse: string -> Entry)
      requires store.Valid()
      ensures Valid() && stream == "" && this.store == store && this.parse == parse
    {
      this.store := store;
      this.parse := parse;
      pending, dropping, stream, handed := "", false, "", [];
    }

    function AdmitLine(line: string, now: int): seq<Stored> {
      var trimmed := TrimSpace(line);
      if trimmed == "" then [] else store.Admit(parse(trimmed), now)
    }

    function AdmitLines(lines: seq<string>, now: int): seq<Stored> {
      if lines == [] then []
      else AdmitLines(lines[..|lines| - 1], now) + AdmitLine(lines[|lines| - 1], now)
    }

    lemma AdmitLinesAppend(lines: seq<string>, line: string, now: int)
      ensures AdmitLines(lines + [line], now) == AdmitLines(lines, now) + AdmitLine(line, now)
    {
      assert (lines + [line])[..|lines|] == lines;
    }

    lemma NoLinesAdmitted(now: int)
      ensures AdmitLines([], now) == []
    {
    }

    method AddLine(line: string, now: int)
      requires store.Valid()
      modifies store, store.entries, store.sizes
      ensures store.Valid() && store.entries == old(store.entries) && store.sizes == old(store.sizes)
      ensures store.accepted == old(store.accepted) + AdmitLine(line, now)
      ensures TrimSpace(line) == "" ==> store.accepted == old(store.accepted)
      ensures TrimSpace(line) != "" ==>
                store.accepted == old(store.accepted) + store.Admit(parse(TrimSpace(line)), now)
    {
      var trimmed := TrimSpace(line);
      if trimmed != "" {
        store.Add(parse(trimmed), now);
      }
    }

    method TakePart(part: string)
      requires Valid() && '\n' !in part
      modifies this
      ensures Valid() && stream == old(stream) + part && handed == old(handed)
    {
      AppendPart(stream, part);
      if !dropping {
        var available := MAX_LINE_BYTES - |pending|;
        if |part| > available {
          pending := pending + part[..available];
          dropping := true;
        } else {
          pending := pending + part;
        }
      }
      stream := stream + part;
    }

    method FinishLine(now: int)
      requires Valid()
      modifies this, store, store.entries, store.sizes
      ensures Valid() && store.entries == old(store.entries) && store.sizes == old(store.sizes)
      ensures stream == old(stream) + "\n" && handed == old(handed) + [old(pending)]
      ensures store.accepted == old(store.accepted) + AdmitLine(old(pending), now)
    {
      hide Tail, Completed, AdmitLine, LogRing.Store.Valid;
      AddLine(pending, now);
      AppendNewline(stream);
      handed := handed + [pending];
      stream := stream + "\n";
      pending := "";
      dropping := false;
    }

    /** Completes zero or more lines; the log receives exactly those, in order. */
    method Write(input: string, now: int) returns (written: nat, ghost lines: seq<string>)
      requires Valid()
      modifies this, store, store.entries, store.sizes
      ensures Valid() && stream == old(stream) + input && written == |input|
      ensures handed == old(handed) + lines
      ensures store.accepted == old(store.accepted) + AdmitLines(lines, now)
    {
      hide Tail, Completed, Truncated, AdmitLine, AdmitLines;
      var data := input;
      NoLinesAdmitted(now);
      written := |input|;
      lines := [];
      while data != []
        invariant Valid() && store.entries == old(store.entries) && store.sizes == old(store.sizes)
        invariant stream + data == old(stream) + input
        invariant handed == old(handed) + lines
        invariant store.accepted == old(store.accepted) + AdmitLines(lines, now)
        decreases |data|
      {
        var newline := IndexOf(data, '\n');
        var part := if newline >= 0 then data[..newline] else data;
        if newline >= 0 {
          CutAt(stream, data, newline);
        }
        TakePart(part);
        if newline < 0 {
          break;
        }
        ghost var admitted, last := AdmitLines(lines, now), AdmitLine(pending, now);
        AdmitLinesAppend(lines, pending, now);
        lines := lines + [pending];
        FinishLine(now);
        ConcatAssociative(old(store.accepted), admitted, last);
        data := data[newline + 1..];
      }
    }
  }
}

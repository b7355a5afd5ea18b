/** Reads the newest audit events by scanning the log file backwards in blocks. */
module AuditTail {
  import opened Text

  const MAX_LINE_SIZE := 1024 * 1024

  datatype Tail<E> = Events(events: seq<E>) | LineTooLong | ReadFailed

  function Prepend<E>(newer: seq<E>, rest: Tail<E>): Tail<E> {
    if rest.Events? then Events(newer + rest.events) else rest
  }

  /** The specification: walk the lines from the last one, skip what is empty or unparsable, fail on
      the first overlong line, and stop once `limit` events, newest first, are collected. */
  function Walk<E>(lines: seq<string>, limit: nat, parse: string -> Option<E>): Tail<E> {
    if limit == 0 || lines == [] then Events([])
    else
      var line, older := lines[|lines| - 1], lines[..|lines| - 1];
      if line == "" then Walk(older, limit, parse)
      else if |line| > MAX_LINE_SIZE then LineTooLong
      else
        match parse(line)
        case None => Walk(older, limit, parse)
        case Some(event) => Prepend([event], Walk(older, limit - 1, parse))
  }

  function Reversed<E>(s: seq<E>): seq<E> {
    seq(|s|, i requires 0 <= i < |s| => s[|s| - 1 - i])
  }

  function InFileOrder<E>(tail: Tail<E>): Tail<E> {
    if tail.Events? then Events(Reversed(tail.events)) else tail
  }

  /** The events of some lines, in file order. */
  function Parsed<E>(lines: seq<string>, parse: string -> Option<E>): seq<E> {
    if lines == [] then [] else EventsIn(lines[0], parse) + Parsed(lines[1..], parse)
  }

  function EventsIn<E>(line: string, parse: string -> Option<E>): seq<E> {
    if line == "" then []
    else match parse(line) case None => [] case Some(event) => [event]
  }

  predicate NoneOverlong(lines: seq<string>, from: nat) {
    forall i :: from <= i < |lines| ==> |lines[i]| <= MAX_LINE_SIZE
  }

  /** A result read off the suffix lines[from..]: its events, up to the limit or the start of the file;
      or a failure on the overlong line met before the limit. */
  ghost predicate Examined<E>(lines: seq<string>, limit: nat, parse: string -> Option<E>, from: nat, result: Tail<E>) {
    match result
    case Events(newest) =>
      && from <= |lines| && NoneOverlong(lines, from)
      && Reversed(newest) == Parsed(lines[from..], parse)
      && |newest| <= limit && (|newest| == limit || from == 0)
    case LineTooLong =>
      && from < |lines| && |lines[from]| > MAX_LINE_SIZE && NoneOverlong(lines, from + 1)
      && |Parsed(lines[from + 1..], parse)| < limit
    case ReadFailed => false
  }

  lemma ExaminedMore<E>(
    older: seq<string>, line: string, limit: nat, parse: string -> Option<E>, from: nat, result: Tail<E>)
    requires |line| <= MAX_LINE_SIZE && limit > 0
    requires Examined(older, limit - |EventsIn(line, parse)|, parse, from, result)
    ensures Examined(older + [line], limit, parse, from,
                     if line == "" || parse(line).None? then result else Prepend([parse(line).value], result))
  {
    var at := match result case Events(_) => from case LineTooLong => from + 1;
    assert (older + [line])[at..] == older[at..] + [line];
    ParsedAppend(older[at..], line, parse);
    if result.Events? && line != "" && parse(line).Some? {
      ReversedCons(parse(line).value, result.events);
    }
  }

  /** The walk examines a suffix of the lines and nothing else. */
  lemma {:induction false} WalkExaminesSuffix<E>(
    lines: seq<string>, limit: nat, parse: string -> Option<E>)
    returns (from: nat)
    ensures Examined(lines, limit, parse, from, Walk(lines, limit, parse))
  {
    from := |lines|;
    if limit != 0 && lines != [] {
      var n := |lines| - 1;
      assert lines == lines[..n] + [lines[n]];
      if |lines[n]| > MAX_LINE_SIZE {
        from := n;
      } else {
        from := WalkExaminesSuffix(lines[..n], limit - |EventsIn(lines[n], parse)|, parse);
        ExaminedMore(lines[..n], lines[n], limit, parse, from,
                     Walk(lines[..n], limit - |EventsIn(lines[n], parse)|, parse));
      }
    }
  }

  lemma ReversedCons<E>(first: E, rest: seq<E>)
    ensures Reversed([first] + rest) == Reversed(rest) + [first]
  {
  }

  lemma {:induction false} ParsedAppend<E>(lines: seq<string>, line: string, parse: string -> Option<E>)
    ensures Parsed(lines + [line], parse) == Parsed(lines, parse) + EventsIn(line, parse)
  {
    if lines == [] {
      assert [] + [line] == [line] && [line][1..] == [];
    } else {
      ParsedAppend(lines[1..], line, parse);
      ConcatAssociative(EventsIn(lines[0], parse), Parsed(lines[1..], parse), EventsIn(line, parse));
      assert (lines + [line])[1..] == lines[1..] + [line];
    }
  }

  /** What parsing one line adds to the events collected so far. */
  method ParseLine<E>(line: string, events: seq<E>, parse: string -> Option<E>) returns (result: Tail<E>)
    ensures result == (if line == "" then Events(events)
                       else if |line| > MAX_LINE_SIZE then LineTooLong
                       else match parse(line) case None => Events(events) case Some(event) => Events(events + [event]))
  {
    if line == "" {
      return Events(events);
    }
    if |line| > MAX_LINE_SIZE {
      return LineTooLong;
    }
    match parse(line)
    case None => return Events(events);
    case Some(event) => return Events(events + [event]);
  }

  lemma WalkLastLine<E>(before: string, line: string, events: seq<E>, limit: nat, parse: string -> Option<E>)
    requires '\n' !in line && |events| < limit
    ensures var rest := Prepend(events, Walk(Split(before + "\n" + line, '\n'), limit - |events|, parse));
            if line == "" then rest == Prepend(events, Walk(Split(before, '\n'), limit - |events|, parse))
            else if |line| > MAX_LINE_SIZE then rest == LineTooLong
            else match parse(line)
                 case None => rest == Prepend(events, Walk(Split(before, '\n'), limit - |events|, parse))
                 case Some(event) =>
                   rest == Prepend(events + [event], Walk(Split(before, '\n'), limit - |events| - 1, parse))
  {
    SplitClosed(before, '\n');
    SplitExtended(before + "\n", line, '\n');
    var lines, older := Split(before + "\n" + line, '\n'), Split(before, '\n');
    assert lines[..|lines| - 1] == older;
    assert lines[|lines| - 1] == [] + line == line;
    if line != "" && |line| <= MAX_LINE_SIZE && parse(line).Some? {
      var event, tail := parse(line).value, Walk(older, limit - |events| - 1, parse);
      if tail.Events? {
        ConcatAssociative(events, [event], tail.events);
      }
    }
  }

  lemma WalkOnlyLine<E>(line: string, events: seq<E>, limit: nat, parse: string -> Option<E>)
    requires '\n' !in line && |events| < limit
    ensures var rest := Prepend(events, Walk(Split(line, '\n'), limit - |events|, parse));
            if line == "" then rest == Events(events)
            else if |line| > MAX_LINE_SIZE then rest == LineTooLong
            else rest == Events(match parse(line) case None => events case Some(event) => events + [event])
  {
    SplitOfLabels(line, '\n');
    assert Walk([line][..0], limit - |events|, parse) == Events([]);
    assert events + [] == events;
    if line != "" && |line| <= MAX_LINE_SIZE && parse(line).Some? {
      assert [line][..0] == [];
      assert [parse(line).value] + [] == [parse(line).value];
    }
  }

  lemma WalkOverlong<E>(before: string, part: string, limit: nat, parse: string -> Option<E>)
    requires '\n' !in part && |part| > MAX_LINE_SIZE && limit > 0
    ensures Walk(Split(before + part, '\n'), limit, parse) == LineTooLong
  {
    SplitExtended(before, part, '\n');
  }

  method LastIndexOf(data: string, c: char) returns (index: int)
    ensures index == -1 <==> c !in data
    ensures index != -1 ==> 0 <= index < |data| && data[index] == c && c !in data[index + 1..]
  {
    index := |data| - 1;
    while index >= 0 && data[index] != c
      invariant -1 <= index < |data|
      invariant c !in data[index + 1..]
    {
      assert data[index..] == [data[index]] + data[index + 1..];
      index := index - 1;
    }
    if index < 0 {
      assert data[0..] == data;
    }
  }

  lemma CutAtLast(before: string, data: string, index: nat)
    requires index < |data| && data[index] == '\n'
    ensures before + data == (before + data[..index]) + "\n" + data[index + 1..]
  {
  }

  /** A result in file order, read off the last lines: their events, as many as were asked for or all there are, or a
      failure on an overlong line met before enough events. */
  ghost predicate ReadOff<E>(lines: seq<string>, limit: nat, parse: string -> Option<E>, from: nat, result: Tail<E>) {
    match result
    case Events(events) =>
      && from <= |lines| && (forall i :: from <= i < |lines| ==> |lines[i]| <= 1024 * 1024)
      && events == Parsed(lines[from..], parse) && |events| <= limit && (|events| == limit || from == 0)
    case LineTooLong =>
      && from < |lines| && |lines[from]| > 1024 * 1024
      && (forall i :: from < i < |lines| ==> |lines[i]| <= 1024 * 1024) && |Parsed(lines[from + 1..], parse)| < limit
    case ReadFailed => true
  }

  lemma NothingRead<E>(lines: seq<string>, limit: nat, parse: string -> Option<E>)
    ensures ReadOff(lines, limit, parse, 0, ReadFailed)
  {
  }

  lemma ExaminedIsReadOff<E>(lines: seq<string>, limit: nat, parse: string -> Option<E>) returns (from: nat)
    ensures ReadOff(lines, limit, parse, from, InFileOrder(Walk(lines, limit, parse)))
  {
    from := WalkExaminesSuffix(lines, limit, parse);
  }

  /** The lines of the current block, newest first, until a partial line remains. */
  method ScanBlock<E>(ghost unread: string, block: string, collected: seq<E>, limit: nat, parse: string -> Option<E>)
    returns (result: Tail<E>, partial: string)
    requires |collected| < limit
    ensures !result.ReadFailed? && (result.Events? ==> |result.events| <= limit)
    ensures var goal := Prepend(collected, Walk(Split(unread + block, '\n'), limit - |collected|, parse));
            if result.LineTooLong? then goal == LineTooLong
            else goal == Prepend(result.events, Walk(Split(unread + partial, '\n'), limit - |result.events|, parse))
    ensures result.Events? && |result.events| < limit ==> '\n' !in partial
  {
    hide Split, Walk, Prepend;
    var events := collected;
    partial := block;
    ghost var goal := Prepend(collected, Walk(Split(unread + block, '\n'), limit - |collected|, parse));
    while |events| < limit
      invariant |events| <= limit
      invariant goal == Prepend(events, Walk(Split(unread + partial, '\n'), limit - |events|, parse))
      decreases |partial|
    {
      var separator := LastIndexOf(partial, '\n');
      if separator < 0 {
        break;
      }
      CutAtLast(unread, partial, separator);
      WalkLastLine(unread + partial[..separator], partial[separator + 1..], events, limit, parse);
      var parsed := ParseLine(partial[separator + 1..], events, parse);
      if parsed.LineTooLong? {
        return LineTooLong, partial;
      }
      events := parsed.events;
      partial := partial[..separator];
    }
    result := Events(events);
  }

  /** Equal to the walk over all lines of the file, for every file, limit and block size, unless a block cannot be
      read. */
  method ReadLastFrom<E>(file: string, blockSize: nat, readable: nat -> bool, limit: nat, parse: string -> Option<E>)
    returns (result: Tail<E>)
    requires blockSize > 0
    ensures !result.ReadFailed? ==> result == InFileOrder(Walk(Split(file, '\n'), limit, parse))
    ensures exists from :: ReadOff(Split(file, '\n'), limit, parse, from, result)
    ensures result.ReadFailed? ==> exists offset :: 0 <= offset < |file| && !readable(offset)
  {
    hide Split, Walk, ReadOff;
    ghost var from := ExaminedIsReadOff(Split(file, '\n'), limit, parse);
    var size := |file|;
    var remainder := "";
    var events: seq<E> := [];
    ghost var goal := Walk(Split(file, '\n'), limit, parse);
    Untouched(file, limit, parse);
    while size > 0 && |events| < limit
      invariant 0 <= size <= |file| && |events| <= limit
      invariant size > 0 ==>
                  goal == Prepend(events, Walk(Split(file[..size] + remainder, '\n'), limit - |events|, parse))
      invariant size == 0 ==> goal == Events(events)
      decreases size
    {
      var count := if blockSize < size then blockSize else size;
      ghost var before := size;
      size := size - count;
      if !readable(size) {
        NothingRead(Split(file, '\n'), limit, parse);
        return ReadFailed;
      }
      var data := file[size..size + count] + remainder;
      NextBlock(file, size, before, remainder);
      var scanned;
      scanned, data := ScanBlock(file[..size], data, events, limit, parse);
      if scanned.LineTooLong? {
        return LineTooLong;
      }
      events := scanned.events;
      if |events| == limit {
        FullyCollected(events, Split(file[..size] + data, '\n'), parse);
        return Events(Reversed(events));
      }
      if |data| > MAX_LINE_SIZE {
        WalkOverlong(file[..size], data, limit - |events|, parse);
        return LineTooLong;
      }
      remainder := data;
      if size == 0 {
        NothingUnread(file, remainder);
        WalkOnlyLine(remainder, events, limit, parse);
        var parsed := ParseLine(remainder, events, parse);
        if parsed.LineTooLong? {
          return LineTooLong;
        }
        events := parsed.events;
      }
    }
    if size > 0 {
      FullyCollected(events, Split(file[..size] + remainder, '\n'), parse);
    }
    result := Events(Reversed(events));
  }

  lemma Untouched<E>(file: string, limit: nat, parse: string -> Option<E>)
    ensures var goal := Walk(Split(file, '\n'), limit, parse);
            && goal == Prepend([], Walk(Split(file[..|file|] + "", '\n'), limit, parse))
            && (file == "" ==> goal == Events([]))
  {
    assert file[..|file|] + "" == file;
    var goal := Walk(Split(file, '\n'), limit, parse);
    if goal.Events? {
      assert [] + goal.events == goal.events;
    }
    if file == "" {
      assert [""][..0] == [];
    }
  }

  lemma NextBlock(file: string, from: nat, to: nat, remainder: string)
    requires from <= to <= |file|
    ensures file[..to] + remainder == file[..from] + (file[from..to] + remainder)
  {
  }

  lemma NothingUnread(file: string, remainder: string)
    ensures file[..0] + remainder == remainder
  {
  }

  lemma FullyCollected<E>(events: seq<E>, lines: seq<string>, parse: string -> Option<E>)
    ensures Prepend(events, Walk(lines, 0, parse)) == Events(events)
  {
    assert events + [] == events;
  }

  const BLOCK_SIZE := 64 * 1024

  datatype File = Missing | Unopened | Opened(bytes: string)

  /** No events when auditing is off or there is no file; a limit outside 1..500 reads as 100. */
  method ReadLast<E>(enabled: bool, file: File, readable: nat -> bool, limit: int, parse: string -> Option<E>)
    returns (result: Tail<E>)
    ensures !enabled || file.Missing? ==> result == Events([])
    ensures enabled && file.Unopened? ==> result == ReadFailed
    ensures enabled && file.Opened? && (forall offset :: 0 <= offset < |file.bytes| ==> readable(offset)) ==>
              result == InFileOrder(Walk(Split(file.bytes, '\n'), if 0 < limit <= 500 then limit else 100, parse))
    ensures enabled && file.Opened? && !result.ReadFailed? ==>
              result == InFileOrder(Walk(Split(file.bytes, '\n'), if 0 < limit <= 500 then limit else 100, parse))
  {
    if !enabled {
      return Events([]);
    }
    var wanted := if limit <= 0 || limit > 500 then 100 else limit;
    match file
    case Missing => result := Events([]);
    case Unopened => result := ReadFailed;
    case Opened(bytes) => result := ReadLastFrom(bytes, BLOCK_SIZE, readable, wanted, parse);
  }
}

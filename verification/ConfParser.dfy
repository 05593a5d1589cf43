/** The recursive parser of the configuration file (`parse_section` in
    exec/coroparse.c). The callback is given as its answers to the calls so far. */
module ConfParser {
  import opened Wrappers
  import opened ConfLine

  datatype Event =
    | Start
    | End
    | SectionStart(path: string)
    | SectionEnd(path: string)
    | Item(path: string, key: string, value: string)
    | Cleanup

  /** Whether the callback accepts the last of the calls it has got. */
  type Callback = seq<Event> -> bool

  /** How a call ends: success, the number of lines read, the calls made. */
  datatype Outcome = Outcome(ok: bool, pos: nat, trace: seq<Event>)

  function Join(path: string, name: string): string {
    if path == "" then name else path + "." + name
  }

  function Failed(pos: nat, trace: seq<Event>): Outcome {
    Outcome(false, pos, trace + [Cleanup])
  }

  /** The lines from `pos` on, inside the section `path`. */
  function Section(lines: seq<string>, pos: nat, path: string, depth: nat, trace: seq<Event>, cb: Callback)
    : (r: Outcome)
    requires pos <= |lines|
    ensures pos <= r.pos <= |lines|
    decreases |lines| - pos
  {
    if pos == |lines| then
      if path != "" then Failed(pos, trace) else Outcome(true, pos, trace + [End, Cleanup])
    else
      match Classify(lines[pos], path)
      case Ignored => Section(lines, pos + 1, path, depth, trace, cb)
      case Malformed => Failed(pos + 1, trace)
      case Open(name) =>
        var inside := Join(path, name);
        var t := trace + [SectionStart(inside)];
        if !cb(t) then Failed(pos + 1, t)
        else
          var r := Section(lines, pos + 1, inside, depth + 1, t, cb);
          if !r.ok then r else Section(lines, r.pos, path, depth, r.trace, cb)
      case Entry(key, value) =>
        var t := trace + [Item(Join(path, key), key, value)];
        if !cb(t) then Failed(pos + 1, t) else Section(lines, pos + 1, path, depth, t, cb)
      case Close =>
        if depth == 0 then Failed(pos + 1, trace)
        else
          var t := trace + [SectionEnd(path)];
          if !cb(t) then Failed(pos + 1, t) else Outcome(true, pos + 1, t)
  }

  /** A whole file. */
  function Parse(lines: seq<string>, cb: Callback): Outcome {
    Section(lines, 0, "", 0, [Start], cb)
  }

  // ---- the structure of the calls ----

  /** The sections that are open after some calls, or nothing if the calls make no
      sense: a section starts or an item is set below the innermost open section, and
      only that section ends. */
  function Replay(trace: seq<Event>): Option<seq<string>> {
    if trace == [] then None
    else
      var k := |trace| - 1;
      if k == 0 then (if trace[0] == Start then Some([""]) else None)
      else
        match Replay(trace[..k])
        case None => None
        case Some(stack) => Next(stack, trace[k])
  }

  function Next(stack: seq<string>, e: Event): Option<seq<string>> {
    if stack == [] then None
    else
      var top := stack[|stack| - 1];
      match e
      case Start => None
      case SectionStart(path) => if IsBelow(path, top) then Some(stack + [path]) else None
      case SectionEnd(path) => if path == top && |stack| > 1 then Some(stack[..|stack| - 1]) else None
      case Item(path, key, _) => if path == Join(top, key) && key != "" then Some(stack) else None
      case End => if |stack| == 1 then Some([]) else None
      case Cleanup => None
  }

  /** The path is the other one with a non-empty name after the dot. */
  predicate IsBelow(path: string, top: string) {
    if top == "" then path != ""
    else |top| + 1 < |path| && path[..|top|] == top && path[|top|] == '.'
  }

  lemma JoinIsBelow(top: string, name: string)
    requires name != ""
    ensures IsBelow(Join(top, name), top)
  {
    var path := Join(top, name);
    if top != "" {
      assert path[..|top|] == top;
    }
  }

  ghost predicate ShortPaths(trace: seq<Event>) {
    forall i :: 0 <= i < |trace| ==>
      match trace[i]
      case SectionStart(path) => |path| < KEYNAME_MAX
      case SectionEnd(path) => |path| < KEYNAME_MAX
      case Item(path, _, _) => |path| < KEYNAME_MAX
      case _ => true
  }

  /** Inside a section: its path is the innermost one, the depth is the number of open
      sections, and only the outermost path is empty. */
  ghost predicate Inside(trace: seq<Event>, stack: seq<string>, path: string, depth: nat) {
    && Replay(trace) == Some(stack) && ShortPaths(trace)
    && |stack| == depth + 1 && stack[depth] == path && |path| < KEYNAME_MAX
    && (path == "" <==> depth == 0)
  }

  lemma ReplaySnoc(trace: seq<Event>, stack: seq<string>, e: Event)
    requires Replay(trace) == Some(stack)
    ensures Replay(trace + [e]) == Next(stack, e)
  {
    assert (trace + [e])[..|trace|] == trace;
  }

  /** The calls but the last, which is a clean-up, make sense. */
  ghost predicate CleanedUp(trace: seq<Event>, allClosed: bool) {
    && |trace| > 1 && trace[|trace| - 1] == Cleanup
    && Replay(trace[..|trace| - 1]).Some?
    && (Replay(trace[..|trace| - 1]).value == [] <==> allClosed)
  }

  /** How a section ends: it is closed again; or the file has ended outside of all
      sections; or the parse has failed, which is followed by one clean-up. */
  ghost predicate Ends(r: Outcome, stack: seq<string>, depth: nat)
    requires depth <= |stack|
  {
    && ShortPaths(r.trace)
    && if r.ok && depth > 0 then Replay(r.trace) == Some(stack[..depth]) else CleanedUp(r.trace, r.ok)
  }

  lemma FailedEnds(pos: nat, trace: seq<Event>, stack: seq<string>, depth: nat)
    requires Replay(trace) == Some(stack) && ShortPaths(trace) && 0 < |stack| && depth <= |stack|
    ensures Ends(Failed(pos, trace), stack, depth)
  {
    assert (trace + [Cleanup])[..|trace|] == trace;
  }

  lemma FileEnds(pos: nat, trace: seq<Event>, stack: seq<string>)
    requires Inside(trace, stack, "", 0)
    ensures Ends(Outcome(true, pos, trace + [End, Cleanup]), stack, 0)
  {
    ReplaySnoc(trace, stack, End);
    var all := trace + [End, Cleanup];
    assert all[..|all| - 1] == trace + [End];
  }

  /** A call that keeps the parser in the same section. */
  lemma ItemInside(trace: seq<Event>, stack: seq<string>, path: string, depth: nat, key: string, value: string)
    requires Inside(trace, stack, path, depth) && key != "" && !TooLong(path, key)
    ensures Inside(trace + [Item(Join(path, key), key, value)], stack, path, depth)
  {
    ReplaySnoc(trace, stack, Item(Join(path, key), key, value));
  }

  lemma OpenInside(trace: seq<Event>, stack: seq<string>, path: string, depth: nat, name: string)
    requires Inside(trace, stack, path, depth) && name != "" && !TooLong(path, name)
    ensures Inside(trace + [SectionStart(Join(path, name))], stack + [Join(path, name)], Join(path, name), depth + 1)
  {
    JoinIsBelow(path, name);
    ReplaySnoc(trace, stack, SectionStart(Join(path, name)));
  }

  lemma CloseEnds(trace: seq<Event>, stack: seq<string>, path: string, depth: nat)
    requires Inside(trace, stack, path, depth) && depth > 0
    ensures Replay(trace + [SectionEnd(path)]) == Some(stack[..depth]) && ShortPaths(trace + [SectionEnd(path)])
  {
    ReplaySnoc(trace, stack, SectionEnd(path));
  }

  lemma {:induction false} SectionEnds(lines: seq<string>, pos: nat, path: string, depth: nat, trace: seq<Event>,
                                       stack: seq<string>, cb: Callback)
    requires pos <= |lines| && Inside(trace, stack, path, depth)
    ensures Ends(Section(lines, pos, path, depth, trace, cb), stack, depth)
    decreases |lines| - pos
  {
    hide Replay, ShortPaths, Classify, Next, Join, TooLong;
    if pos == |lines| {
      if path == "" {
        FileEnds(pos, trace, stack);
      } else {
        FailedEnds(pos, trace, stack, depth);
      }
    } else {
      ClassifyOk(lines[pos], path);
      match Classify(lines[pos], path) {
        case Ignored => SectionEnds(lines, pos + 1, path, depth, trace, stack, cb);
        case Malformed => FailedEnds(pos + 1, trace, stack, depth);
        case Open(name) => OpenEnds(lines, pos, path, depth, trace, stack, cb, name);
        case Entry(key, value) =>
          var t := trace + [Item(Join(path, key), key, value)];
          ItemInside(trace, stack, path, depth, key, value);
          FailedEnds(pos + 1, t, stack, depth);
          SectionEnds(lines, pos + 1, path, depth, t, stack, cb);
        case Close =>
          FailedEnds(pos + 1, trace, stack, depth);
          if depth > 0 {
            var t := trace + [SectionEnd(path)];
            CloseEnds(trace, stack, path, depth);
            FailedEnds(pos + 1, t, stack[..depth], depth);
          }
      }
    }
  }

  lemma ClassifyOk(line: string, path: string)
    ensures Classify(line, path).Open? ==> Classify(line, path).name != "" && !TooLong(path, Classify(line, path).name)
    ensures Classify(line, path).Entry? ==> Classify(line, path).key != "" && !TooLong(path, Classify(line, path).key)
  {
  }

  lemma {:induction false} OpenEnds(lines: seq<string>, pos: nat, path: string, depth: nat, trace: seq<Event>,
                                    stack: seq<string>, cb: Callback, name: string)
    requires pos < |lines| && Inside(trace, stack, path, depth)
    requires Classify(lines[pos], path) == Open(name) && name != "" && !TooLong(path, name)
    ensures Ends(Section(lines, pos, path, depth, trace, cb), stack, depth)
    decreases |lines| - pos, 0
  {
    hide Replay, ShortPaths, Classify, Next, Join, TooLong;
    var inside := Join(path, name);
    var t := trace + [SectionStart(inside)];
    OpenInside(trace, stack, path, depth, name);
    FailedEnds(pos + 1, t, stack + [inside], depth);
    if cb(t) {
      SectionEnds(lines, pos + 1, inside, depth + 1, t, stack + [inside], cb);
      var r := Section(lines, pos + 1, inside, depth + 1, t, cb);
      if r.ok {
        assert (stack + [inside])[..depth + 1] == stack;
        SectionEnds(lines, r.pos, path, depth, r.trace, stack, cb);
      }
    }
  }

  /** Calls that make sense begin with the only start, have no clean-up, and have the
      end exactly when all is closed. */
  lemma {:induction false} ReplayShape(trace: seq<Event>)
    requires Replay(trace).Some?
    ensures trace != [] && trace[0] == Start && Start !in trace[1..]
    ensures Cleanup !in trace
    ensures End in trace <==> Replay(trace).value == []
    ensures End in trace ==> trace[|trace| - 1] == End && End !in trace[..|trace| - 1]
  {
    var k := |trace| - 1;
    if k > 0 {
      ReplayShape(trace[..k]);
      assert trace == trace[..k] + [trace[k]];
      assert trace[1..] == trace[..k][1..] + [trace[k]];
    }
  }

  /** Every parse of every file: one start first and one clean-up last. The calls in
      between open and close sections properly below each other, with paths within the
      limit; all sections are closed, and the end is reported just before the clean-up,
      exactly when the parse succeeds. */
  lemma ParseStructure(lines: seq<string>, cb: Callback)
    ensures |Parse(lines, cb).trace| > 1
    ensures var r := Parse(lines, cb);
            var calls := r.trace[..|r.trace| - 1];
            && r.trace[|r.trace| - 1] == Cleanup && Cleanup !in calls
            && calls[0] == Start && Start !in calls[1..]
            && Replay(calls).Some? && ShortPaths(r.trace)
            && (r.ok <==> Replay(calls) == Some([]))
            && (r.ok <==> End in calls)
            && (r.ok ==> calls[|calls| - 1] == End && End !in calls[..|calls| - 1])
  {
    assert Inside([Start], [""], "", 0);
    SectionEnds(lines, 0, "", 0, [Start], [""], cb);
    var r := Parse(lines, cb);
    ReplayShape(r.trace[..|r.trace| - 1]);
  }

  // ---- the parser as it runs ----

  class Parser {
    const lines: seq<string>
    const cb: Callback
    var pos: nat
    var trace: seq<Event>

    constructor (file: seq<string>, callback: Callback)
      ensures lines == file && cb == callback && pos == 0 && trace == []
    {
      lines, cb, pos, trace := file, callback, 0, [];
    }

    /** `parser_cb`. */
    method Call(e: Event) returns (accepted: bool)
      modifies this`trace
      ensures trace == old(trace) + [e] && accepted == cb(trace)
    {
      trace := trace + [e];
      return cb(trace);
    }

    /** The end of `parse_section` on an error. */
    method ParseError()
      modifies this`trace
      ensures trace == old(trace) + [Cleanup]
    {
      var _ := Call(Cleanup);
    }

    /** One line: its blanks, then the marks in the order of the source. */
    method ReadLine(line: string, path: string) returns (r: Line)
      ensures r == Classify(line, path)
    {
      hide Chomp, RemoveWhitespace, StrchrRs, SkipBlank, TooLong;
      if |line| > LINE_MAX {
        return Malformed;
      }
      var s := ChompLoop(line);
      var k := SkipBlankLoop(s, 0);
      if k == |s| || s[k] == '#' {
        return Ignored;
      }
      var loc := StrchrRsLoop(s, '{');
      if loc.Some? {
        var name := RemoveWhitespaceLoop(s[..loc.value - 1], true);
        var after := RemoveWhitespaceLoop(s[loc.value..], false);
        return if name == "" || after != "" || TooLong(path, name) then Malformed else Open(name);
      }
      loc := StrchrRsLoop(s, ':');
      if loc.Some? {
        var key := RemoveWhitespaceLoop(s[..loc.value - 1], true);
        var value := RemoveWhitespaceLoop(s[loc.value..], false);
        return if key == "" || TooLong(path, key) then Malformed else Entry(key, value);
      }
      loc := StrchrRsLoop(s, '}');
      if loc.Some? {
        var trimmed := RemoveWhitespaceLoop(s, false);
        return if trimmed == "}" then Close else Malformed;
      }
      return Malformed;
    }

    /** A call whose refusal is an error. */
    method Offer(e: Event) returns (accepted: bool)
      modifies this`trace
      ensures accepted == cb(old(trace) + [e])
      ensures trace == if accepted then old(trace) + [e] else old(trace) + [e] + [Cleanup]
    {
      accepted := Call(e);
      if !accepted {
        ParseError();
      }
    }

    /** `parse_section`. */
    method ParseSection(path: string, depth: nat) returns (ok: bool)
      requires pos <= |lines|
      modifies this
      ensures old(pos) <= pos <= |lines|
      ensures Outcome(ok, pos, trace) == Section(lines, old(pos), path, depth, Entered(old(trace), path), cb)
      decreases |lines| - pos, 1
    {
      hide Section;
      if path == "" {
        var _ := Call(Start);
      }
      ok := ParseLines(path, depth);
    }

    /** The loop of `parse_section` and what follows it. */
    method ParseLines(path: string, depth: nat) returns (ok: bool)
      requires pos <= |lines|
      modifies this
      ensures old(pos) <= pos <= |lines|
      ensures Outcome(ok, pos, trace) == Section(lines, old(pos), path, depth, old(trace), cb)
      decreases |lines| - pos, 0
    {
      hide Section, Classify, Join;
      ghost var r := Section(lines, pos, path, depth, trace, cb);
      while pos < |lines|
        invariant old(pos) <= pos <= |lines|
        invariant r == Section(lines, pos, path, depth, trace, cb)
        decreases |lines| - pos
      {
        SectionLine(lines, pos, path, depth, trace, cb);
        var line := ReadLine(lines[pos], path);
        pos := pos + 1;
        match line {
          case Ignored =>
          case Malformed =>
            ParseError();
            return false;
          case Open(name) =>
            NamedIsNotEmpty(lines[pos - 1], path);
            ok := ParseInner(Join(path, name), depth);
            if !ok {
              return;
            }
          case Entry(key, value) =>
            ok := Offer(Item(Join(path, key), key, value));
            if !ok {
              return;
            }
          case Close =>
            if depth == 0 {
              ParseError();
              return false;
            }
            ok := Offer(SectionEnd(path));
            return;
        }
      }
      SectionFileEnd(lines, path, depth, trace, cb);
      if path != "" {
        ParseError();
        return false;
      }
      var _ := Call(End);
      assert trace + [Cleanup] == r.trace;
      var _ := Call(Cleanup);
      return true;
    }

    /** A section inside, from its opening line on. */
    method ParseInner(inside: string, depth: nat) returns (ok: bool)
      requires pos <= |lines| && inside != ""
      modifies this
      ensures old(pos) <= pos <= |lines|
      ensures var t := old(trace) + [SectionStart(inside)];
              Outcome(ok, pos, trace) ==
              if !cb(t) then Failed(old(pos), t) else Section(lines, old(pos), inside, depth + 1, t, cb)
      decreases |lines| - pos, 2
    {
      hide Section;
      ok := Offer(SectionStart(inside));
      if ok {
        ok := ParseSection(inside, depth + 1);
      }
    }
  }

  /** The start is reported at the outermost level only. */
  function Entered(trace: seq<Event>, path: string): seq<Event> {
    if path == "" then trace + [Start] else trace
  }

  lemma SectionLine(lines: seq<string>, pos: nat, path: string, depth: nat, trace: seq<Event>, cb: Callback)
    requires pos < |lines|
    ensures var r := Section(lines, pos, path, depth, trace, cb);
            match Classify(lines[pos], path)
            case Ignored => r == Section(lines, pos + 1, path, depth, trace, cb)
            case Malformed => r == Failed(pos + 1, trace)
            case Open(name) =>
              var t := trace + [SectionStart(Join(path, name))];
              var i := Section(lines, pos + 1, Join(path, name), depth + 1, t, cb);
              r == (if !cb(t) then Failed(pos + 1, t)
                    else if !i.ok then i
                    else Section(lines, i.pos, path, depth, i.trace, cb))
            case Entry(key, value) =>
              var t := trace + [Item(Join(path, key), key, value)];
              r == if !cb(t) then Failed(pos + 1, t) else Section(lines, pos + 1, path, depth, t, cb)
            case Close =>
              var t := trace + [SectionEnd(path)];
              r == if depth == 0 then Failed(pos + 1, trace)
                   else if !cb(t) then Failed(pos + 1, t)
                   else Outcome(true, pos + 1, t)
  {
    hide Classify, Join;
  }

  lemma SectionFileEnd(lines: seq<string>, path: string, depth: nat, trace: seq<Event>, cb: Callback)
    ensures Section(lines, |lines|, path, depth, trace, cb) ==
            if path != "" then Failed(|lines|, trace) else Outcome(true, |lines|, trace + [End, Cleanup])
  {
  }

  lemma NamedIsNotEmpty(line: string, path: string)
    ensures Classify(line, path).Open? ==> Join(path, Classify(line, path).name) != ""
  {
  }
}

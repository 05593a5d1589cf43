/** Every well-formed configuration, written with any indentation, blanks, comments and
    line ends, is read back as exactly its sections and settings. */
module ConfRoundTrip {
  import opened Wrappers
  import opened ConfLine
  import opened ConfParser

  /** Blanks around the parts of a line, and whether it ends in a carriage return. */
  datatype Layout = Layout(indent: string, gap: string, after: string, trail: string, cr: bool)

  datatype Conf =
    | Nothing
    | Remark(text: string, rest: Conf)
    | Setting(key: string, value: string, layout: Layout, rest: Conf)
    | Group(name: string, body: Conf, head: Layout, foot: Layout, rest: Conf)

  // ---- writing ----

  function LineEnd(cr: bool): string {
    if cr then "\r" else ""
  }

  function SettingLine(key: string, value: string, l: Layout): string {
    l.indent + key + l.gap + ":" + l.after + value + l.trail + LineEnd(l.cr)
  }

  function HeadLine(name: string, l: Layout): string {
    l.indent + name + l.gap + "{" + l.trail + LineEnd(l.cr)
  }

  function FootLine(l: Layout): string {
    l.indent + "}" + l.trail + LineEnd(l.cr)
  }

  function Lines(c: Conf): seq<string> {
    match c
    case Nothing => []
    case Remark(text, rest) => [text] + Lines(rest)
    case Setting(key, value, layout, rest) => [SettingLine(key, value, layout)] + Lines(rest)
    case Group(name, body, head, foot, rest) => [HeadLine(name, head)] + Lines(body) + [FootLine(foot)] + Lines(rest)
  }

  /** What the callback is to be told. */
  function Events(c: Conf, path: string): seq<Event> {
    match c
    case Nothing => []
    case Remark(_, rest) => Events(rest, path)
    case Setting(key, value, _, rest) =>
      [Item(if path == "" then key else path + "." + key, key, value)] + Events(rest, path)
    case Group(name, body, _, _, rest) =>
      var inside := if path == "" then name else path + "." + name;
      [SectionStart(inside)] + Events(body, inside) + [SectionEnd(inside)] + Events(rest, path)
  }

  // ---- what can be written ----

  /** White space: a space, a tab, or the byte 160. */
  predicate White(c: char) {
    c == ' ' || c == '\t' || c as int == 160
  }

  /** It is what the parser takes for blanks. */
  lemma WhiteIsBlank(c: char)
    ensures White(c) <==> Blank(c)
  {
  }

  predicate AllBlank(s: string) {
    forall i :: 0 <= i < |s| ==> White(s[i])
  }

  /** A path and a name below it are short enough. */
  predicate ShortEnough(path: string, name: string) {
    |path| + |name| + 1 < 255
  }

  /** White space only, or a comment. */
  ghost predicate RemarkOk(text: string) {
    |text| <= 510 && exists k :: RemarkAt(text, k)
  }

  predicate RemarkAt(text: string, k: int) {
    && 0 <= k <= |text| && AllBlank(text[..k])
    && (k == |text| || text[k] == '#' || text[k..] == "\r")
  }

  predicate LayoutOk(l: Layout) {
    AllBlank(l.indent) && AllBlank(l.gap) && AllBlank(l.after) && AllBlank(l.trail)
  }

  /** Not blank at either end. */
  predicate Tight(s: string) {
    s != "" ==> !White(s[0]) && !White(s[|s| - 1])
  }

  predicate NameOk(s: string) {
    && s != "" && Tight(s) && s[0] != '#' && '{' !in s && s[|s| - 1] != ':'
  }

  predicate KeyOk(s: string) {
    NameOk(s) && ':' !in s
  }

  predicate ValueOk(s: string) {
    Tight(s) && '{' !in s && (s != "" ==> s[|s| - 1] != '\r')
  }

  ghost predicate ConfOk(c: Conf, path: string) {
    match c
    case Nothing => true
    case Remark(text, rest) => RemarkOk(text) && ConfOk(rest, path)
    case Setting(key, value, layout, rest) =>
      && KeyOk(key) && ValueOk(value) && LayoutOk(layout) && ShortEnough(path, key)
      && |SettingLine(key, value, layout)| <= 510 && ConfOk(rest, path)
    case Group(name, body, head, foot, rest) =>
      && NameOk(name) && LayoutOk(head) && LayoutOk(foot) && ShortEnough(path, name)
      && |HeadLine(name, head)| <= 510 && |FootLine(foot)| <= 510
      && ConfOk(body, if path == "" then name else path + "." + name) && ConfOk(rest, path)
  }

  // ---- the helpers, by what they find ----

  lemma SkipBlankIs(s: string, i: nat, k: nat)
    requires i <= k <= |s| && (forall j :: i <= j < k ==> Blank(s[j])) && (k < |s| ==> !Blank(s[k]))
    ensures SkipBlank(s, i) == k
  {
  }

  lemma FindIs(s: string, c: char, k: nat)
    requires k < |s| && s[k] == c && c !in s[..k]
    ensures Find(s, c) == k
  {
    assert forall j :: 0 <= j < k ==> s[j] == s[..k][j];
  }

  lemma TrimRightIs(s: string, tail: string)
    requires AllBlank(tail) && (s != "" ==> !Blank(s[|s| - 1]))
    ensures TrimRight(s + tail) == s
  {
    var all := s + tail;
    var r := TrimRight(all);
    assert s != "" ==> all[|s| - 1] == s[|s| - 1];
    assert r == all[..|r|];
  }

  lemma CutEndIs(s: string, tail: string, marks: bool)
    requires s != "" && !Loses(s[|s| - 1], marks) && forall j :: 0 <= j < |tail| ==> Loses(tail[j], marks)
    ensures CutEnd(s + tail, marks) == s
  {
    var all := s + tail;
    var r := CutEnd(all, marks);
    assert all[|s| - 1] == s[|s| - 1];
    assert r == all[..|r|];
  }

  /** What is left of blanks, a word and a tail that loses. */
  lemma RemoveWhitespaceIs(indent: string, word: string, tail: string, marks: bool)
    requires AllBlank(indent) && word != "" && !Blank(word[0]) && !Loses(word[|word| - 1], marks)
    requires forall j :: 0 <= j < |tail| ==> Loses(tail[j], marks)
    ensures RemoveWhitespace(indent + word + tail, marks) == word
  {
    var s := indent + word + tail;
    SkipBlankIs(s, 0, |indent|);
    assert s[|indent|..] == word + tail;
    CutEndIs(word, tail, marks);
  }

  lemma ChompIs(s: string, tail: string, cr: bool)
    requires AllBlank(tail) && s != "" && !Blank(s[|s| - 1]) && s[|s| - 1] != '\r'
    ensures Chomp(s + tail + LineEnd(cr)) == s
  {
    var line := s + tail + LineEnd(cr);
    if cr {
      assert line[..|line| - 1] == s + tail;
    } else {
      assert line == s + tail;
      assert tail != "" ==> line[|line| - 1] == tail[|tail| - 1];
    }
    TrimRightIs(s, tail);
  }

  /** The content of a line begins behind its indentation. */
  lemma HasContent(indent: string, rest: string)
    requires AllBlank(indent) && rest != "" && !Blank(rest[0]) && rest[0] != '#'
    ensures !NoContent(indent + rest)
  {
    SkipBlankIs(indent + rest, 0, |indent|);
  }

  /** A mark is found behind the text that does not have it. */
  lemma StrchrRsIs(before: string, c: char, blanks: string, rest: string)
    requires c !in before && AllBlank(blanks) && !Blank(c) && (rest != "" ==> !Blank(rest[0]))
    ensures StrchrRs(before + [c] + blanks + rest, c) == Some(|before| + 1 + |blanks|)
  {
    hide Find, SkipBlank;
    var s := before + [c] + blanks + rest;
    assert s[..|before|] == before;
    FindIs(s, c, |before|);
    SkipBlankIs(s, |before| + 1, |before| + 1 + |blanks|);
  }

  lemma HeadReads(name: string, l: Layout, path: string)
    requires NameOk(name) && LayoutOk(l) && ShortEnough(path, name) && |HeadLine(name, l)| <= 510
    ensures Classify(HeadLine(name, l), path) == Open(name)
  {
    hide Find, SkipBlank, Chomp, NoContent, RemoveWhitespace, StrchrRs;
    var before := l.indent + name + l.gap;
    var s := before + "{";
    ChompIs(s, l.trail, l.cr);
    assert HeadLine(name, l) == s + l.trail + LineEnd(l.cr);
    assert s == l.indent + (name + l.gap + "{") by {
      HeadGrouped(l.indent, name, l.gap);
    }
    HasContent(l.indent, name + l.gap + "{");
    StrchrRsIs(before, '{', "", "");
    assert before + ['{'] + "" + "" == s;
    assert s[..|before|] == before && s[|s|..] == "";
    RemoveWhitespaceIs(l.indent, name, l.gap, true);
    NothingLeft();
  }

  lemma HeadGrouped(indent: string, name: string, gap: string)
    ensures indent + name + gap + "{" == indent + (name + gap + "{")
  {
  }

  lemma NothingLeft()
    ensures RemoveWhitespace("", false) == ""
  {
  }

  lemma FootReads(l: Layout, path: string)
    requires LayoutOk(l) && |FootLine(l)| <= 510
    ensures Classify(FootLine(l), path) == Close
  {
    hide Find, SkipBlank, Chomp, NoContent, RemoveWhitespace, StrchrRs;
    var s := l.indent + "}";
    ChompIs(s, l.trail, l.cr);
    HasContent(l.indent, "}");
    assert s[|l.indent|] == '}';
    RemoveWhitespaceIs(l.indent, "}", "", false);
    assert s + "" == s;
  }

  /** How a line without an opening brace is read. */
  lemma ClassifyEntry(line: string, s: string, path: string, loc: nat, key: string, value: string)
    requires |line| <= 510 && Chomp(line) == s && !NoContent(s) && '{' !in s
    requires StrchrRs(s, ':') == Some(loc) && key != "" && ShortEnough(path, key)
    requires RemoveWhitespace(s[..loc - 1], true) == key && RemoveWhitespace(s[loc..], false) == value
    ensures Classify(line, path) == Entry(key, value)
  {
    hide Chomp, NoContent, RemoveWhitespace, StrchrRs;
  }

  lemma SettingReads(key: string, value: string, l: Layout, path: string)
    requires KeyOk(key) && ValueOk(value) && LayoutOk(l) && ShortEnough(path, key)
    requires |SettingLine(key, value, l)| <= 510
    ensures Classify(SettingLine(key, value, l), path) == Entry(key, value)
  {
    hide Classify, Chomp, NoContent, RemoveWhitespace, StrchrRs, TooLong, SettingLine;
    var after := if value == "" then "" else l.after;
    var s := l.indent + key + l.gap + ":" + after + value;
    var loc := |l.indent + key + l.gap| + 1 + |after|;
    SettingContent(key, value, l);
    SettingMark(key, value, l, after);
    SettingKey(key, l, after);
    assert s[loc..] == value;
    assert s[..loc - 1] == (l.indent + key + l.gap + ":" + after)[..loc - 1];
    SettingValue(value);
    ClassifyEntry(SettingLine(key, value, l), s, path, loc, key, value);
  }

  /** There is a key, no opening brace, and the first colon is the mark. */
  lemma SettingMark(key: string, value: string, l: Layout, after: string)
    requires KeyOk(key) && ValueOk(value) && LayoutOk(l) && AllBlank(after)
    ensures var s := l.indent + key + l.gap + ":" + after + value;
            && !NoContent(s) && '{' !in s
            && StrchrRs(s, ':') == Some(|l.indent + key + l.gap| + 1 + |after|)
  {
    hide NoContent, StrchrRs;
    var before := l.indent + key + l.gap;
    var s := before + ":" + after + value;
    HasContent(l.indent, key + l.gap + ":" + after + value);
    assert s == l.indent + (key + l.gap + ":" + after + value);
    StrchrRsIs(before, ':', after, value);
    assert s == before + [':'] + after + value;
  }

  /** The line without its end; blanks behind the mark of an empty value go too. */
  lemma SettingContent(key: string, value: string, l: Layout)
    requires KeyOk(key) && ValueOk(value) && LayoutOk(l)
    ensures Chomp(SettingLine(key, value, l)) ==
            l.indent + key + l.gap + ":" + (if value == "" then "" else l.after) + value
  {
    hide Chomp;
    var before := l.indent + key + l.gap + ":";
    if value == "" {
      ChompIs(before, l.after + l.trail, l.cr);
      assert SettingLine(key, value, l) == before + (l.after + l.trail) + LineEnd(l.cr);
      assert before + "" + value == before;
    } else {
      ChompIs(before + l.after + value, l.trail, l.cr);
    }
  }

  lemma SettingKey(key: string, l: Layout, after: string)
    requires KeyOk(key) && LayoutOk(l) && AllBlank(after)
    ensures var s := l.indent + key + l.gap + ":" + after;
            RemoveWhitespace(s[..|s| - 1], true) == key
  {
    hide RemoveWhitespace;
    var s := l.indent + key + l.gap + ":" + after;
    if after == "" {
      RemoveWhitespaceIs(l.indent, key, l.gap, true);
      assert s[..|s| - 1] == l.indent + key + l.gap;
    } else {
      var tail := l.gap + ":" + after[..|after| - 1];
      RemoveWhitespaceIs(l.indent, key, tail, true);
      assert s[..|s| - 1] == l.indent + key + tail;
    }
  }

  lemma SettingValue(value: string)
    requires ValueOk(value)
    ensures RemoveWhitespace(value, false) == value
  {
    if value == "" {
      NothingLeft();
    } else {
      hide RemoveWhitespace;
      RemoveWhitespaceIs("", value, "", false);
      assert "" + value + "" == value;
    }
  }

  // ---- reading back ----

  /** The lines of a configuration, inside any file and any section. */
  lemma {:induction false} SectionReads(lines: seq<string>, pos: nat, path: string, depth: nat, trace: seq<Event>,
                                        cb: Callback, c: Conf)
    requires ConfOk(c, path) && forall t :: cb(t)
    requires pos + |Lines(c)| <= |lines| && lines[pos..pos + |Lines(c)|] == Lines(c)
    ensures Section(lines, pos, path, depth, trace, cb) ==
            Section(lines, pos + |Lines(c)|, path, depth, trace + Events(c, path), cb)
    decreases c, 1
  {
    hide Section, Classify, SettingLine, HeadLine, FootLine, KeyOk, ValueOk, NameOk, LayoutOk, NoContent, Chomp;
    match c
    case Nothing =>
      assert trace + [] == trace;
    case Remark(text, rest) =>
      LinesSplit(lines, pos, [text], Lines(rest));
      SectionLine(lines, pos, path, depth, trace, cb);
      RemarkReads(text, path);
      SectionReads(lines, pos + 1, path, depth, trace, cb, rest);
    case Setting(key, value, layout, rest) =>
      LinesSplit(lines, pos, [SettingLine(key, value, layout)], Lines(rest));
      SectionLine(lines, pos, path, depth, trace, cb);
      SettingReads(key, value, layout, path);
      var e := Item(Join(path, key), key, value);
      SectionReads(lines, pos + 1, path, depth, trace + [e], cb, rest);
      assert trace + [e] + Events(rest, path) == trace + ([e] + Events(rest, path));
    case Group(name, body, head, foot, rest) =>
      GroupReads(lines, pos, path, depth, trace, cb, c);
  }

  lemma RemarkReads(text: string, path: string)
    requires RemarkOk(text)
    ensures Classify(text, path) == Ignored
  {
    hide RemarkAt, Chomp, NoContent;
    var k :| RemarkAt(text, k);
    RemarkHasNoContent(text, k);
  }

  /** A line without a carriage return at its end. */
  function WithoutReturn(line: string): string {
    if line != "" && line[|line| - 1] == '\r' then line[..|line| - 1] else line
  }

  /** What chomping takes away behind the carriage return is white. */
  lemma Chomped(line: string)
    ensures var s, l := Chomp(line), WithoutReturn(line);
            s <= l && (s != "" ==> !White(s[|s| - 1])) && forall j :: |s| <= j < |l| ==> White(l[j])
  {
  }

  lemma RemarkHasNoContent(text: string, k: int)
    requires RemarkAt(text, k)
    ensures NoContent(Chomp(text))
  {
    hide Chomp, SkipBlank;
    Chomped(text);
    var s, l := Chomp(text), WithoutReturn(text);
    assert forall j :: 0 <= j < k ==> White(text[j]) by {
      assert forall j :: 0 <= j < k ==> text[j] == text[..k][j];
    }
    if k < |text| && text[k] == '#' {
      assert k < |l| && l[k] == '#';
      assert k < |s| && s[k] == '#';
      SkipBlankIs(s, 0, k);
    } else {
      assert |l| <= k;
      SkipBlankIs(s, 0, |s|);
    }
  }

  /** The first lines and the rest of a stretch of the file. */
  lemma LinesSplit(lines: seq<string>, pos: nat, a: seq<string>, b: seq<string>)
    requires pos + |a| + |b| <= |lines| && lines[pos..pos + |a| + |b|] == a + b
    ensures lines[pos..pos + |a|] == a && lines[pos + |a|..pos + |a| + |b|] == b
    ensures a != [] ==> lines[pos] == a[0]
  {
    assert lines[pos..pos + |a|] == (a + b)[..|a|];
    assert lines[pos + |a|..pos + |a| + |b|] == (a + b)[|a|..];
    assert a != [] ==> lines[pos] == (a + b)[0];
  }

  /** The lines of a section. */
  lemma GroupLines(lines: seq<string>, pos: nat, h: string, b: seq<string>, f: string, rest: seq<string>)
    requires var all := [h] + b + [f] + rest;
             pos + |all| <= |lines| && lines[pos..pos + |all|] == all
    ensures lines[pos] == h && lines[pos + 1..pos + 1 + |b|] == b && lines[pos + 1 + |b|] == f
    ensures lines[pos + 2 + |b|..pos + 2 + |b| + |rest|] == rest
  {
    LinesSplit(lines, pos, [h] + b + [f], rest);
    LinesSplit(lines, pos, [h] + b, [f]);
    LinesSplit(lines, pos + 1 + |b|, [f], []);
    LinesSplit(lines, pos, [h], b);
  }

  /** A section from behind its opening line to its closing line. */
  lemma {:induction false} BodyReads(lines: seq<string>, pos: nat, inside: string, depth: nat, trace: seq<Event>,
                                     cb: Callback, body: Conf, foot: Layout)
    requires ConfOk(body, inside) && LayoutOk(foot) && |FootLine(foot)| <= 510 && forall t :: cb(t)
    requires pos + |Lines(body)| < |lines| && lines[pos..pos + |Lines(body)|] == Lines(body)
    requires lines[pos + |Lines(body)|] == FootLine(foot)
    ensures Section(lines, pos, inside, depth + 1, trace, cb) ==
            Outcome(true, pos + |Lines(body)| + 1, trace + Events(body, inside) + [SectionEnd(inside)])
    decreases body, 2
  {
    hide Section, Classify, FootLine, LayoutOk, Lines, Events, ConfOk;
    SectionReads(lines, pos, inside, depth + 1, trace, cb, body);
    SectionLine(lines, pos + |Lines(body)|, inside, depth + 1, trace + Events(body, inside), cb);
    FootReads(foot, inside);
  }

  lemma GroupParts(lines: seq<string>, pos: nat, c: Conf, path: string)
    requires c.Group? && ConfOk(c, path)
    requires pos + |Lines(c)| <= |lines| && lines[pos..pos + |Lines(c)|] == Lines(c)
    ensures var n, rest := |Lines(c.body)|, Lines(c.rest);
            && |Lines(c)| == n + 2 + |rest|
            && lines[pos] == HeadLine(c.name, c.head) && lines[pos + 1..pos + 1 + n] == Lines(c.body)
            && lines[pos + 1 + n] == FootLine(c.foot) && lines[pos + 2 + n..pos + 2 + n + |rest|] == rest
    ensures && NameOk(c.name) && LayoutOk(c.head) && LayoutOk(c.foot) && ShortEnough(path, c.name)
            && |HeadLine(c.name, c.head)| <= 510 && |FootLine(c.foot)| <= 510
            && ConfOk(c.body, Join(path, c.name)) && ConfOk(c.rest, path)
  {
    hide Lines, ConfOk, HeadLine, FootLine, Join, NameOk, LayoutOk;
    GroupOk(c, path);
    GroupWritten(c);
    GroupLines(lines, pos, HeadLine(c.name, c.head), Lines(c.body), FootLine(c.foot), Lines(c.rest));
  }

  lemma GroupOk(c: Conf, path: string)
    requires c.Group? && ConfOk(c, path)
    ensures && NameOk(c.name) && LayoutOk(c.head) && LayoutOk(c.foot) && ShortEnough(path, c.name)
            && |HeadLine(c.name, c.head)| <= 510 && |FootLine(c.foot)| <= 510
            && ConfOk(c.body, Join(path, c.name)) && ConfOk(c.rest, path)
  {
    hide HeadLine, FootLine, NameOk, LayoutOk;
  }

  lemma GroupWritten(c: Conf)
    requires c.Group?
    ensures Lines(c) == [HeadLine(c.name, c.head)] + Lines(c.body) + [FootLine(c.foot)] + Lines(c.rest)
  {
    hide HeadLine, FootLine;
  }

  lemma GroupEvents(trace: seq<Event>, path: string, c: Conf)
    requires c.Group?
    ensures var inside := Join(path, c.name);
            trace + [SectionStart(inside)] + Events(c.body, inside) + [SectionEnd(inside)] + Events(c.rest, path)
            == trace + Events(c, path)
  {
    var inside := Join(path, c.name);
    var a, b := [SectionStart(inside)] + Events(c.body, inside) + [SectionEnd(inside)], Events(c.rest, path);
    assert Events(c, path) == a + b;
    assert trace + [SectionStart(inside)] + Events(c.body, inside) + [SectionEnd(inside)] == trace + a;
    assert trace + a + b == trace + (a + b);
  }

  /** The opening line leads into the section and back behind it. */
  lemma HeadStep(lines: seq<string>, pos: nat, path: string, depth: nat, trace: seq<Event>, cb: Callback,
                 name: string, head: Layout, r: Outcome)
    requires pos < |lines| && lines[pos] == HeadLine(name, head) && forall t :: cb(t)
    requires NameOk(name) && LayoutOk(head) && ShortEnough(path, name) && |HeadLine(name, head)| <= 510
    requires r == Section(lines, pos + 1, Join(path, name), depth + 1, trace + [SectionStart(Join(path, name))], cb)
    requires r.ok
    ensures Section(lines, pos, path, depth, trace, cb) == Section(lines, r.pos, path, depth, r.trace, cb)
  {
    hide Section, Classify, HeadLine, Join, NameOk, LayoutOk;
    SectionLine(lines, pos, path, depth, trace, cb);
    HeadReads(name, head, path);
  }

  lemma {:induction false} GroupReads(lines: seq<string>, pos: nat, path: string, depth: nat, trace: seq<Event>,
                                      cb: Callback, c: Conf)
    requires c.Group? && ConfOk(c, path) && forall t :: cb(t)
    requires pos + |Lines(c)| <= |lines| && lines[pos..pos + |Lines(c)|] == Lines(c)
    ensures Section(lines, pos, path, depth, trace, cb) ==
            Section(lines, pos + |Lines(c)|, path, depth, trace + Events(c, path), cb)
    decreases c, 0
  {
    hide *;
    var inside, n := Join(path, c.name), |Lines(c.body)|;
    var t := trace + [SectionStart(inside)];
    var v := t + Events(c.body, inside) + [SectionEnd(inside)];
    var m := pos + 2 + n;
    assert m + |Lines(c.rest)| == pos + |Lines(c)| by {
      GroupParts(lines, pos, c, path);
    }
    assert Section(lines, pos, path, depth, trace, cb) == Section(lines, m, path, depth, v, cb) by {
      GroupParts(lines, pos, c, path);
      BodyReads(lines, pos + 1, inside, depth, t, cb, c.body, c.foot);
      HeadStep(lines, pos, path, depth, trace, cb, c.name, c.head, Outcome(true, m, v));
    }
    assert Section(lines, m, path, depth, v, cb) ==
           Section(lines, m + |Lines(c.rest)|, path, depth, v + Events(c.rest, path), cb) by {
      GroupParts(lines, pos, c, path);
      SectionReads(lines, m, path, depth, v, cb, c.rest);
    }
    GroupEvents(trace, path, c);
  }

  /** Reading a written configuration reports exactly what it says. */
  lemma RoundTrip(c: Conf, cb: Callback)
    requires ConfOk(c, "") && forall t :: cb(t)
    ensures Parse(Lines(c), cb) == Outcome(true, |Lines(c)|, [Start] + Events(c, "") + [End, Cleanup])
  {
    hide Section;
    var lines := Lines(c);
    assert lines[0..0 + |lines|] == lines;
    SectionReads(lines, 0, "", 0, [Start], cb, c);
    SectionFileEnd(lines, "", 0, [Start] + Events(c, ""), cb);
  }
}

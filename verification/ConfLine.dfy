/** Lines of the configuration file and what exec/coroparse.c reads in them. */
module ConfLine {
  import opened Wrappers

  const LINE_MAX := 510
  const KEYNAME_MAX := 255

  /** Space, tab, or the byte 0xA0. */
  predicate Blank(c: char) {
    c == ' ' || c == '\t' || c as int == 0xA0
  }

  // ---- the string helpers ----

  /** The first index from `i` on where the character is not blank. */
  function SkipBlank(s: string, i: nat): (k: nat)
    requires i <= |s|
    ensures i <= k <= |s|
    ensures forall j :: i <= j < k ==> Blank(s[j])
    ensures k < |s| ==> !Blank(s[k])
    decreases |s| - i
  {
    if i < |s| && Blank(s[i]) then SkipBlank(s, i + 1) else i
  }

  function TrimRight(s: string): (r: string)
    ensures r <= s
    ensures r != [] ==> !Blank(r[|r| - 1])
    ensures forall j :: |r| <= j < |s| ==> Blank(s[j])
  {
    if s != [] && Blank(s[|s| - 1]) then TrimRight(s[..|s| - 1]) else s
  }

  function Find(s: string, c: char): (k: nat)
    ensures k <= |s|
    ensures k < |s| ==> s[k] == c
    ensures forall j :: 0 <= j < k ==> s[j] != c
  {
    if s == [] || s[0] == c then 0 else 1 + Find(s[1..], c)
  }

  /** `strchr_rs`: behind the character and the blanks that follow it. */
  function StrchrRs(s: string, c: char): (r: Option<nat>)
    ensures r.Some? <==> c in s
    ensures r.Some? ==> 0 < r.value <= |s|
  {
    var k := Find(s, c);
    if k < |s| then Some(SkipBlank(s, k + 1)) else None
  }

  /** What the right end loses; with `marks` also colons and opening braces. */
  predicate Loses(c: char, marks: bool) {
    Blank(c) || (marks && (c == ':' || c == '{'))
  }

  /** Cut the right end but keep the first character. */
  function CutEnd(s: string, marks: bool): (r: string)
    requires s != []
    ensures r != [] && r <= s
    ensures |r| > 1 ==> !Loses(r[|r| - 1], marks)
    ensures forall j :: |r| <= j < |s| ==> Loses(s[j], marks)
  {
    if |s| > 1 && Loses(s[|s| - 1], marks) then CutEnd(s[..|s| - 1], marks) else s
  }

  /** `remove_whitespace`. */
  function RemoveWhitespace(s: string, marks: bool): (r: string)
    ensures r == [] <==> forall j :: 0 <= j < |s| ==> Blank(s[j])
  {
    var k := SkipBlank(s, 0);
    if k == |s| then [] else CutEnd(s[k..], marks)
  }

  // ---- one line ----

  datatype Line =
    | Ignored
    | Open(name: string)
    | Entry(key: string, value: string)
    | Close
    | Malformed

  /** Without a carriage return and blanks at the end. */
  function Chomp(line: string): string {
    TrimRight(if line != [] && line[|line| - 1] == '\r' then line[..|line| - 1] else line)
  }

  /** Empty or a comment. */
  predicate NoContent(s: string) {
    var k := SkipBlank(s, 0);
    k == |s| || s[k] == '#'
  }

  /** What a line means below a path, with the checks in the order of the source. The
      text before the mark reaches up to the last of the blanks that follow the mark. */
  function Classify(line: string, path: string): Line {
    if |line| > LINE_MAX then Malformed
    else
      var s := Chomp(line);
      if NoContent(s) then Ignored
      else if '{' in s then
        var loc := StrchrRs(s, '{').value;
        var name := RemoveWhitespace(s[..loc - 1], true);
        if name == "" || RemoveWhitespace(s[loc..], false) != "" || TooLong(path, name) then Malformed
        else Open(name)
      else if ':' in s then
        var loc := StrchrRs(s, ':').value;
        var key := RemoveWhitespace(s[..loc - 1], true);
        if key == "" || TooLong(path, key) then Malformed
        else Entry(key, RemoveWhitespace(s[loc..], false))
      else if '}' in s then
        if RemoveWhitespace(s, false) == "}" then Close else Malformed
      else Malformed
  }

  predicate TooLong(path: string, name: string) {
    |path| + |name| + 1 >= KEYNAME_MAX
  }

  /** A word, a colon and blanks after it: cut at the right end, the colon stays only
      when there is no word. */
  lemma ColonCut(u: string, f: nat)
    requires u != "" && f <= |u| && (f < |u| ==> u[f] == ':') && (forall j :: 0 <= j < f ==> u[j] != ':')
    requires forall j :: f < j < |u| ==> Blank(u[j])
    ensures ':' in CutEnd(u, true) <==> f == 0
  {
    hide CutEnd;
    var r := CutEnd(u, true);
    assert forall i :: 0 <= i < |r| ==> r[i] == u[i];
    if f == 0 {
      assert r[0] == ':';
    } else {
      assert |r| > 1 ==> !Loses(u[|r| - 1], true);
      assert |r| <= f;
    }
  }

  lemma ColonWord(s: string, k: nat, f: nat, loc: nat)
    requires k <= f < loc <= |s| && k < loc - 1 && s[f] == ':' && (forall j :: 0 <= j < f ==> s[j] != ':')
    requires forall j :: f < j < loc ==> Blank(s[j])
    ensures var u := s[..loc - 1][k..];
            && f - k <= |u| && (f - k < |u| ==> u[f - k] == ':') && (forall j :: 0 <= j < f - k ==> u[j] != ':')
            && forall j :: f - k < j < |u| ==> Blank(u[j])
  {
    var u := s[..loc - 1][k..];
    assert u == s[k..loc - 1];
  }

  /** The key of a line with a colon and no opening brace. */
  lemma KeyOf(s: string, k: nat, f: nat, loc: nat)
    requires k == SkipBlank(s, 0) && f == Find(s, ':') < |s| && loc == SkipBlank(s, f + 1)
    ensures var key := RemoveWhitespace(s[..loc - 1], true);
            && k <= f
            && (key != "" ==> (':' in key <==> s[k] == ':'))
  {
    hide Find, SkipBlank, CutEnd;
    var u := s[..loc - 1];
    SkipBlankPrefix(s, loc - 1);
    if k < |u| {
      ColonWord(s, k, f, loc);
      ColonCut(u[k..], f - k);
    }
  }

  /** The check for an empty key misses a line that begins with the colon, if a blank
      follows it: the key is then the colon. No other key has a colon in it. */
  lemma ColonInKey(line: string, path: string)
    requires Classify(line, path).Entry?
    ensures var s, key := Chomp(line), Classify(line, path).key;
            && SkipBlank(s, 0) < |s|
            && (':' in key <==> s[SkipBlank(s, 0)] == ':')
  {
    hide Classify, Chomp, RemoveWhitespace, Find, SkipBlank;
    EntryParts(line, path);
    var s := Chomp(line);
    var f := Find(s, ':');
    KeyOf(s, SkipBlank(s, 0), f, SkipBlank(s, f + 1));
  }

  lemma EntryParts(line: string, path: string)
    requires Classify(line, path).Entry?
    ensures var s, key := Chomp(line), Classify(line, path).key;
            && !NoContent(s) && ':' in s
            && key == RemoveWhitespace(s[..StrchrRs(s, ':').value - 1], true) != ""
  {
    hide Chomp, RemoveWhitespace, StrchrRs, NoContent;
  }

  lemma SkipBlankPrefix(s: string, n: nat)
    requires n <= |s|
    ensures SkipBlank(s[..n], 0) == if SkipBlank(s, 0) < n then SkipBlank(s, 0) else n
  {
    var k := SkipBlank(s[..n], 0);
    assert forall j :: 0 <= j < k ==> Blank(s[j]);
    assert k < n ==> !Blank(s[k]);
  }

  /** Such a line is read, while the same without the blank is refused. */
  lemma ColonIsAKey(path: string)
    requires |path| < 250
    ensures Classify(": v", path) == Entry(":", "v")
    ensures Classify(":v", path) == Malformed
  {
    WithBlank();
    WithoutBlank();
    hide Chomp, RemoveWhitespace, StrchrRs, NoContent;
  }

  lemma WithBlank()
    ensures Chomp(": v") == ": v" && !NoContent(": v") && StrchrRs(": v", ':') == Some(2)
    ensures RemoveWhitespace(": v"[..1], true) == ":" && RemoveWhitespace(": v"[2..], false) == "v"
  {
    assert ": v"[..1] == ":" && ": v"[2..] == "v";
  }

  lemma WithoutBlank()
    ensures Chomp(":v") == ":v" && !NoContent(":v") && StrchrRs(":v", ':') == Some(1)
    ensures RemoveWhitespace(":v"[..0], true) == ""
  {
  }

  // ---- the helpers as loops ----

  method StrchrRsLoop(s: string, c: char) returns (r: Option<nat>)
    ensures r == StrchrRs(s, c)
  {
    var k := 0;
    while k < |s| && s[k] != c
      invariant 0 <= k <= |s| && forall j :: 0 <= j < k ==> s[j] != c
    {
      k := k + 1;
    }
    if k == |s| {
      return None;
    }
    assert k == Find(s, c);
    var e := SkipBlankLoop(s, k + 1);
    return Some(e);
  }

  method SkipBlankLoop(s: string, i: nat) returns (e: nat)
    requires i <= |s|
    ensures e == SkipBlank(s, i)
  {
    e := i;
    while e < |s| && Blank(s[e])
      invariant i <= e <= |s| && SkipBlank(s, i) == SkipBlank(s, e)
    {
      e := e + 1;
    }
  }

  method RemoveWhitespaceLoop(s: string, marks: bool) returns (r: string)
    ensures r == RemoveWhitespace(s, marks)
  {
    var start := SkipBlankLoop(s, 0);
    if start == |s| {
      return [];
    }
    r := s[start..];
    ghost var whole := r;
    while |r| > 1 && Loses(r[|r| - 1], marks)
      invariant r != [] && CutEnd(r, marks) == CutEnd(whole, marks)
      decreases |r|
    {
      r := r[..|r| - 1];
    }
  }

  /** The end of the line buffer is cleared from the right. */
  method ChompLoop(line: string) returns (s: string)
    ensures s == Chomp(line)
  {
    s := line;
    if s != [] && s[|s| - 1] == '\r' {
      s := s[..|s| - 1];
    }
    ghost var whole := s;
    while s != [] && Blank(s[|s| - 1])
      invariant TrimRight(s) == TrimRight(whole)
      decreases |s|
    {
      s := s[..|s| - 1];
    }
  }
}

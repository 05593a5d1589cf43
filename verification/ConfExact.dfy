/** The lines that are accepted are exactly those with the parts that are read from
    them: nothing else stands on the line, and every line with such parts is read so. */
module ConfExact {
  import opened Wrappers
  import opened ConfLine
  import opened ConfRoundTrip

  /** Blanks, and colons between a name and the mark. */
  predicate Filler(s: string) {
    forall i :: 0 <= i < |s| ==> White(s[i]) || s[i] == ':'
  }

  /** What trimming before a mark leaves: a single character may be a colon. */
  predicate Word(s: string) {
    s != "" && !White(s[0]) && (|s| > 1 ==> !White(s[|s| - 1]) && s[|s| - 1] != ':' && s[|s| - 1] != '{')
  }

  lemma TrimmedIsWord(s: string)
    ensures RemoveWhitespace(s, true) != "" ==> Word(RemoveWhitespace(s, true))
  {
    hide CutEnd;
  }

  /** Blanks, a word and a tail that loses. */
  lemma WordIsLeft(indent: string, word: string, tail: string)
    requires AllBlank(indent) && Word(word) && forall j :: 0 <= j < |tail| ==> Loses(tail[j], true)
    ensures RemoveWhitespace(indent + word + tail, true) == word
  {
    hide CutEnd, SkipBlank;
    var s := indent + word + tail;
    SkipBlankIs(s, 0, |indent|);
    assert s[|indent|..] == word + tail;
    WordIsKept(word, tail);
  }

  lemma WordIsKept(word: string, tail: string)
    requires Word(word) && forall j :: 0 <= j < |tail| ==> Loses(tail[j], true)
    ensures CutEnd(word + tail, true) == word
  {
    hide CutEnd;
    var all := word + tail;
    var r := CutEnd(all, true);
    assert all[|word| - 1] == word[|word| - 1];
    assert r == all[..|r|];
  }

  /** Trimming takes away blanks in front and a tail that loses. */
  lemma Trimmed(s: string, marks: bool) returns (indent: string, tail: string)
    requires RemoveWhitespace(s, marks) != ""
    ensures s == indent + RemoveWhitespace(s, marks) + tail
    ensures AllBlank(indent) && forall i :: 0 <= i < |tail| ==> Loses(tail[i], marks)
  {
    hide SkipBlank, CutEnd;
    var k := SkipBlank(s, 0);
    var r := CutEnd(s[k..], marks);
    indent, tail := s[..k], s[k..][|r|..];
    assert s[k..] == r + tail;
    assert s == s[..k] + s[k..];
    forall i | 0 <= i < |tail|
      ensures Loses(tail[i], marks)
    {
      assert tail[i] == s[k..][|r| + i];
    }
  }

  /** Where the text of a line ends there is no blank. */
  lemma ChompTight(line: string)
    ensures Chomp(line) != "" ==> !Blank(Chomp(line)[|Chomp(line)| - 1])
  {
  }

  lemma NothingButBlanks(s: string, marks: bool)
    requires RemoveWhitespace(s, marks) == ""
    ensures AllBlank(s)
  {
  }

  /** The first character that is not blank. */
  lemma ContentStarts(s: string, k: nat)
    requires k < |s| && (forall j :: 0 <= j < k ==> Blank(s[j])) && !Blank(s[k])
    ensures NoContent(s) <==> s[k] == '#'
  {
    SkipBlankIs(s, 0, k);
  }

  // ---- the end of a line, comments, and lines that are too long ----

  /** What is left of a line: everything but a carriage return at the end and the white
      space before it. */
  lemma ChompIsExact(line: string, s: string)
    ensures Chomp(line) == s <==>
            && (s == "" || !White(s[|s| - 1]))
            && exists tail :: AllBlank(tail) && EndsWith(line, s + tail)
  {
    hide Chomp;
    Chomped(line);
    if Chomp(line) == s {
      var l := WithoutReturn(line);
      var tail := l[|s|..];
      assert l == s + tail;
      assert EndsWith(line, s + tail);
    }
    if (s == "" || !White(s[|s| - 1])) && exists tail :: AllBlank(tail) && EndsWith(line, s + tail) {
      var tail :| AllBlank(tail) && EndsWith(line, s + tail);
      assert WithoutReturn(line) == s + tail;
      SameEnd(Chomp(line), s, tail);
    }
  }

  /** The line is the text and at most one carriage return. */
  predicate EndsWith(line: string, text: string) {
    line == text + "\r" || (line == text && (text == "" || text[|text| - 1] != '\r'))
  }

  lemma SameEnd(a: string, s: string, tail: string)
    requires a <= s + tail && AllBlank(tail) && (s == "" || !White(s[|s| - 1])) && (a == "" || !White(a[|a| - 1]))
    requires forall j :: |a| <= j < |s + tail| ==> White((s + tail)[j])
    ensures a == s
  {
    var all := s + tail;
    assert a == all[..|a|] && s == all[..|s|];
    assert s != "" ==> all[|s| - 1] == s[|s| - 1];
    assert a != "" ==> all[|a| - 1] == a[|a| - 1];
  }

  /** A line is passed over if and only if it is white space or a comment. */
  lemma IgnoredIsExact(line: string, path: string)
    ensures Classify(line, path) == Ignored <==> RemarkOk(line)
  {
    hide Chomp, NoContent, RemarkAt;
    if Classify(line, path) == Ignored {
      var k := NoContentIsRemark(line);
    }
    if RemarkOk(line) {
      RemarkReads(line, path);
    }
  }

  lemma NoContentIsRemark(line: string) returns (k: int)
    requires NoContent(Chomp(line))
    ensures RemarkAt(line, k)
  {
    hide Chomp, SkipBlank;
    Chomped(line);
    var s, l := Chomp(line), WithoutReturn(line);
    k := SkipBlank(s, 0);
    if k == |s| {
      k := |l|;
    }
  }

  /** Exactly the lines of more than 510 characters are refused for their length. */
  lemma LineLimit(line: string, path: string)
    ensures |line| > 510 ==> Classify(line, path) == Malformed
    ensures |line| <= 510 && line != "" && line[0] == '#' ==> Classify(line, path) == Ignored
  {
    if |line| <= 510 && line != "" && line[0] == '#' {
      assert RemarkAt(line, 0);
      RemarkReads(line, path);
    }
  }

  // ---- the start of a section ----

  /** Blanks, the name, at most blanks and colons, and the brace as the last character. */
  ghost predicate HeadParts(s: string, indent: string, name: string, gap: string) {
    && AllBlank(indent) && Word(name) && name[0] != '#' && '{' !in name && Filler(gap)
    && s == indent + name + gap + "{"
  }

  /** A line opens a section with a name if and only if it has these parts. */
  lemma OpenIsExact(line: string, path: string, name: string)
    ensures Classify(line, path) == Open(name) <==>
            && |line| <= 510 && ShortEnough(path, name)
            && exists indent, gap :: HeadParts(Chomp(line), indent, name, gap)
  {
    hide Classify, Chomp, HeadParts;
    if Classify(line, path) == Open(name) {
      var indent, gap := OpenHas(line, path);
      assert HeadParts(Chomp(line), indent, name, gap);
    }
    if |line| <= 510 && ShortEnough(path, name) && exists indent, gap :: HeadParts(Chomp(line), indent, name, gap) {
      var indent, gap :| HeadParts(Chomp(line), indent, name, gap);
      HeadIsRead(line, path, indent, name, gap);
    }
  }

  lemma HeadIsRead(line: string, path: string, indent: string, name: string, gap: string)
    requires |line| <= 510 && ShortEnough(path, name) && HeadParts(Chomp(line), indent, name, gap)
    ensures Classify(line, path) == Open(name)
  {
    hide Chomp, NoContent, RemoveWhitespace, StrchrRs;
    var s, before := Chomp(line), indent + name + gap;
    ContentStarts(s, |indent|);
    StrchrRsIs(before, '{', "", "");
    assert before + ['{'] + "" + "" == s;
    assert s[..|before|] == before && s[|s|..] == "";
    WordIsLeft(indent, name, gap);
    NothingLeft();
  }

  lemma OpenHas(line: string, path: string) returns (indent: string, gap: string)
    requires Classify(line, path).Open?
    ensures HeadParts(Chomp(line), indent, Classify(line, path).name, gap)
    ensures |line| <= 510 && ShortEnough(path, Classify(line, path).name)
  {
    hide Classify, Chomp, RemoveWhitespace, NoContent, HeadParts;
    var before := BeforeBrace(line, path);
    indent, gap := NameAndGap(Chomp(line), before);
  }

  /** The brace is the last character. */
  lemma BeforeBrace(line: string, path: string) returns (before: string)
    requires Classify(line, path).Open?
    ensures var s, name := Chomp(line), Classify(line, path).name;
            && s == before + "{" && '{' !in before && name == RemoveWhitespace(before, true) != ""
            && !NoContent(s) && |line| <= 510 && ShortEnough(path, name)
  {
    hide Classify, Chomp, RemoveWhitespace, SkipBlank, Find, NoContent;
    var s := Chomp(line);
    OpenParts(line, path);
    var k := Find(s, '{');
    var loc := SkipBlank(s, k + 1);
    ChompTight(line);
    NothingButBlanks(s[loc..], false);
    assert loc == |s| && k + 1 == |s|;
    before := s[..k];
  }

  lemma NameAndGap(s: string, before: string) returns (indent: string, gap: string)
    requires s == before + "{" && '{' !in before && RemoveWhitespace(before, true) != "" && !NoContent(s)
    ensures HeadParts(s, indent, RemoveWhitespace(before, true), gap)
  {
    hide RemoveWhitespace, NoContent;
    var name := RemoveWhitespace(before, true);
    indent, gap := Trimmed(before, true);
    TrimmedIsWord(before);
    assert forall i :: 0 <= i < |gap| ==> gap[i] == before[|indent| + |name| + i];
    assert forall i :: 0 <= i < |name| ==> name[i] == before[|indent| + i];
    assert s[|indent|] == name[0];
    ContentStarts(s, |indent|);
  }

  lemma OpenParts(line: string, path: string)
    requires Classify(line, path).Open?
    ensures var s, name := Chomp(line), Classify(line, path).name;
            && |line| <= 510 && !NoContent(s) && '{' in s && Find(s, '{') < |s|
            && var loc := SkipBlank(s, Find(s, '{') + 1);
               && 0 < loc <= |s|
               && name == RemoveWhitespace(s[..loc - 1], true) != ""
               && RemoveWhitespace(s[loc..], false) == "" && ShortEnough(path, name)
  {
    hide Chomp, RemoveWhitespace, SkipBlank, NoContent;
  }

  // ---- the end of a section ----

  ghost predicate FootParts(s: string, indent: string) {
    AllBlank(indent) && s == indent + "}"
  }

  /** A line closes a section if and only if it is blanks and the brace. */
  lemma CloseIsExact(line: string, path: string)
    ensures Classify(line, path) == Close <==>
            |line| <= 510 && exists indent :: FootParts(Chomp(line), indent)
  {
    hide Classify, Chomp, FootParts;
    if Classify(line, path) == Close {
      var indent := CloseHas(line, path);
      assert FootParts(Chomp(line), indent);
    }
    if |line| <= 510 && exists indent :: FootParts(Chomp(line), indent) {
      var indent :| FootParts(Chomp(line), indent);
      FootIsRead(line, path, indent);
    }
  }

  lemma FootIsRead(line: string, path: string, indent: string)
    requires |line| <= 510 && FootParts(Chomp(line), indent)
    ensures Classify(line, path) == Close
  {
    hide Chomp, NoContent, RemoveWhitespace, StrchrRs;
    var s := Chomp(line);
    assert s[|indent|] == '}';
    ContentStarts(s, |indent|);
    RemoveWhitespaceIs(indent, "}", "", false);
    assert s + "" == s;
  }

  lemma CloseHas(line: string, path: string) returns (indent: string)
    requires Classify(line, path).Close?
    ensures FootParts(Chomp(line), indent) && |line| <= 510
  {
    hide Chomp, RemoveWhitespace, NoContent;
    CloseParts(line, path);
    ChompTight(line);
    var tail;
    indent, tail := Trimmed(Chomp(line), false);
    assert tail == "";
  }

  lemma CloseParts(line: string, path: string)
    requires Classify(line, path).Close?
    ensures |line| <= 510 && RemoveWhitespace(Chomp(line), false) == "}"
  {
    hide Chomp, RemoveWhitespace, NoContent, StrchrRs;
  }

  // ---- a setting ----

  /** A key without a colon, the first colon with blanks around it, and the value up to
      the end; or a line that begins with a colon and a blank, where the colon is the key. */
  ghost predicate EntryParts(s: string, indent: string, key: string, before: string, after: string, value: string) {
    && AllBlank(indent) && AllBlank(before) && AllBlank(after) && Tight(value) && '{' !in s
    && if key == ":" then before == "" && after != "" && s == indent + ":" + after + value
       else
         && key != "" && Tight(key) && ':' !in key && key[0] != '#'
         && s == indent + key + before + ":" + after + value
  }

  /** A line sets a key to a value if and only if it has these parts. */
  lemma EntryIsExact(line: string, path: string, key: string, value: string)
    ensures Classify(line, path) == Entry(key, value) <==>
            && |line| <= 510 && ShortEnough(path, key)
            && exists indent, before, after :: EntryParts(Chomp(line), indent, key, before, after, value)
  {
    hide Classify, Chomp, EntryParts;
    if Classify(line, path) == Entry(key, value) {
      var indent, before, after := EntryHas(line, path);
      assert EntryParts(Chomp(line), indent, key, before, after, value);
    }
    if && |line| <= 510 && ShortEnough(path, key)
       && exists indent, before, after :: EntryParts(Chomp(line), indent, key, before, after, value) {
      var indent, before, after :| EntryParts(Chomp(line), indent, key, before, after, value);
      ChompTight(line);
      var loc := PartsAreRead(Chomp(line), indent, key, before, after, value);
      EntryNotEmpty(Chomp(line), indent, key, before, after, value);
      ClassifyEntry(line, Chomp(line), path, loc, key, value);
    }
  }

  lemma EntryNotEmpty(s: string, indent: string, key: string, before: string, after: string, value: string)
    requires EntryParts(s, indent, key, before, after, value)
    ensures key != "" && '{' !in s
  {
  }

  /** The parts are what the helpers find. */
  lemma PartsAreRead(s: string, indent: string, key: string, before: string, after: string, value: string)
    returns (loc: nat)
    requires EntryParts(s, indent, key, before, after, value) && (s != "" ==> !Blank(s[|s| - 1]))
    ensures !NoContent(s) && StrchrRs(s, ':') == Some(loc) && 0 < loc <= |s| && s[loc..] == value
    ensures RemoveWhitespace(s[..loc - 1], true) == key && RemoveWhitespace(s[loc..], false) == value
  {
    hide NoContent, StrchrRs, RemoveWhitespace;
    ValueIsLeft(value);
    if key == ":" {
      loc := |indent| + 1 + |after|;
      ColonIsRead(s, indent, after, value);
    } else {
      loc := |indent + key + before| + 1 + |after|;
      MarkIsRead(s, indent, key, before, after, value);
      KeyIsLeft(s, indent, key, before, after, value);
    }
  }

  lemma ColonIsRead(s: string, indent: string, after: string, value: string)
    requires AllBlank(indent) && AllBlank(after) && after != "" && Tight(value) && s == indent + ":" + after + value
    ensures var loc := |indent| + 1 + |after|;
            && !NoContent(s) && StrchrRs(s, ':') == Some(loc) && s[loc..] == value
            && RemoveWhitespace(s[..loc - 1], true) == ":"
  {
    hide NoContent, StrchrRs, RemoveWhitespace;
    assert s[|indent|] == ':';
    ContentStarts(s, |indent|);
    StrchrRsIs(indent, ':', after, value);
    WordIsLeft(indent, ":", after[..|after| - 1]);
    assert s[..|indent| + |after|] == indent + ":" + after[..|after| - 1];
  }

  lemma MarkIsRead(s: string, indent: string, key: string, before: string, after: string, value: string)
    requires AllBlank(indent) && AllBlank(before) && AllBlank(after) && Tight(value)
    requires key != "" && Tight(key) && ':' !in key && key[0] != '#'
    requires s == indent + key + before + ":" + after + value
    ensures var loc := |indent + key + before| + 1 + |after|;
            !NoContent(s) && StrchrRs(s, ':') == Some(loc) && s[loc..] == value
  {
    hide NoContent, StrchrRs;
    assert s[|indent|] == key[0];
    ContentStarts(s, |indent|);
    StrchrRsIs(indent + key + before, ':', after, value);
  }

  lemma ValueIsLeft(value: string)
    requires Tight(value)
    ensures RemoveWhitespace(value, false) == value
  {
    if value == "" {
      NothingLeft();
    } else {
      hide RemoveWhitespace;
      RemoveWhitespaceIs("", value, "", false);
      assert "" + value + "" == value;
    }
  }

  lemma KeyIsLeft(s: string, indent: string, key: string, before: string, after: string, value: string)
    requires AllBlank(indent) && AllBlank(before) && AllBlank(after) && '{' !in s
    requires key != "" && Tight(key) && ':' !in key && s == indent + key + before + ":" + after + value
    ensures RemoveWhitespace(s[..|indent + key + before| + |after|], true) == key
  {
    hide RemoveWhitespace;
    assert key[|key| - 1] == s[|indent| + |key| - 1];
    if after == "" {
      WordIsLeft(indent, key, before);
      assert s[..|indent + key + before|] == indent + key + before;
    } else {
      var tail := before + ":" + after[..|after| - 1];
      WordIsLeft(indent, key, tail);
      assert s[..|indent + key + before| + |after|] == indent + key + tail;
    }
  }

  lemma EntryHas(line: string, path: string) returns (indent: string, before: string, after: string)
    requires Classify(line, path).Entry?
    ensures var key, value := Classify(line, path).key, Classify(line, path).value;
            && EntryParts(Chomp(line), indent, key, before, after, value)
            && |line| <= 510 && ShortEnough(path, key)
  {
    hide Classify, Chomp, RemoveWhitespace, SkipBlank, Find, NoContent, EntryParts;
    EntrySplit(line, path);
    ChompTight(line);
    var s := Chomp(line);
    var f := Find(s, ':');
    var loc := SkipBlank(s, f + 1);
    var key;
    indent, key, before, after := AroundColon(s, f, loc);
    var loc' := PartsAreRead(s, indent, key, before, after, s[loc..]);
    assert StrchrRs(s, ':') == Some(loc);
  }

  /** How a line with a colon is taken apart. */
  lemma AroundColon(s: string, f: nat, loc: nat) returns (indent: string, key: string, before: string, after: string)
    requires f < |s| && s[f] == ':' && (forall j :: 0 <= j < f ==> s[j] != ':')
    requires '{' !in s && !Blank(s[|s| - 1]) && !NoContent(s)
    requires f < loc <= |s| && (forall j :: f < j < loc ==> Blank(s[j])) && (loc < |s| ==> !Blank(s[loc]))
    requires RemoveWhitespace(s[..loc - 1], true) != ""
    ensures EntryParts(s, indent, key, before, after, s[loc..])
  {
    hide RemoveWhitespace, SkipBlank, EntryParts;
    var k := SkipBlank(s, 0);
    assert k <= f;
    indent, after := s[..k], s[f + 1..loc];
    if k == f {
      key, before := ":", "";
      ColonFirst(s, f, loc);
    } else {
      key, before := KeyFirst(s, k, f, loc);
    }
  }

  /** The colon is the first character. */
  lemma ColonFirst(s: string, f: nat, loc: nat)
    requires f < loc <= |s| && s[f] == ':' && '{' !in s && !Blank(s[|s| - 1])
    requires forall j :: 0 <= j < f ==> Blank(s[j])
    requires (forall j :: f < j < loc ==> Blank(s[j])) && (loc < |s| ==> !Blank(s[loc]))
    requires RemoveWhitespace(s[..loc - 1], true) != ""
    ensures EntryParts(s, s[..f], ":", "", s[f + 1..loc], s[loc..])
  {
    hide RemoveWhitespace;
    BlankTrimsToNothing(s[..f]);
    assert s == s[..f] + ":" + s[f + 1..loc] + s[loc..];
  }

  /** A key stands before it. */
  lemma KeyFirst(s: string, k: nat, f: nat, loc: nat) returns (key: string, before: string)
    requires k < f < loc <= |s| && s[f] == ':' && (forall j :: 0 <= j < f ==> s[j] != ':')
    requires '{' !in s && !Blank(s[|s| - 1]) && !Blank(s[k]) && s[k] != '#'
    requires forall j :: 0 <= j < k ==> Blank(s[j])
    requires (forall j :: f < j < loc ==> Blank(s[j])) && (loc < |s| ==> !Blank(s[loc]))
    ensures EntryParts(s, s[..k], key, before, s[f + 1..loc], s[loc..])
  {
    key := TrimKey(s, k, f);
    before := s[k + |key|..f];
    assert s == s[..k] + key + before + ":" + s[f + 1..loc] + s[loc..];
  }

  lemma TrimKey(s: string, k: nat, f: nat) returns (key: string)
    requires k < f < |s| && (forall j :: 0 <= j < f ==> s[j] != ':') && !Blank(s[k]) && s[k] != '#'
    ensures key != "" && |key| <= f - k && key == s[k..k + |key|]
    ensures Tight(key) && ':' !in key && key[0] != '#' && AllBlank(s[k + |key|..f])
  {
    hide TrimRight;
    var word := s[k..f];
    key := TrimRight(word);
    assert word[0] == s[k];
    assert key == word[..|key|] == s[k..k + |key|];
    assert forall i :: 0 <= i < |word| ==> word[i] == s[k + i];
  }

  lemma BlankTrimsToNothing(s: string)
    ensures AllBlank(s) ==> RemoveWhitespace(s, true) == ""
  {
  }

  lemma EntrySplit(line: string, path: string)
    requires Classify(line, path).Entry?
    ensures var s, key, value := Chomp(line), Classify(line, path).key, Classify(line, path).value;
            && |line| <= 510 && !NoContent(s) && '{' !in s && Find(s, ':') < |s|
            && var loc := SkipBlank(s, Find(s, ':') + 1);
               && key == RemoveWhitespace(s[..loc - 1], true) != ""
               && value == RemoveWhitespace(s[loc..], false) && ShortEnough(path, key)
  {
    hide Chomp, RemoveWhitespace, SkipBlank, NoContent;
  }
}

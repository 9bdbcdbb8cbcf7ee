/**
 * The statement language: whitespace squishing, comment lines, nouns and
 * verbs with their normal forms, and statements `Subject verb Object`
 * split out of each line.
 */
module Text {
  import opened Wrappers

  /** Whitespace as a regular expression's `\s` sees it: space, tab, line feed, vertical tab, form feed, carriage return. */
  predicate IsSpace(c: char)
  {
    c == ' ' || c == '\t' || c == '\n' || c == '\U{0B}' || c == '\U{0C}' || c == '\r'
  }

  predicate IsLower(c: char) { 'a' <= c <= 'z' }

  predicate IsUpper(c: char) { 'A' <= c <= 'Z' }

  // ---------------------------------------------------------------------
  // squish

  /** Drops the leading whitespace (and is `lstrip`). */
  function SkipSpaces(t: string): (r: string)
    ensures |r| <= |t| && r == t[|t| - |r|..]
    ensures r == [] || !IsSpace(r[0])
    ensures forall k :: 0 <= k < |t| - |r| ==> IsSpace(t[k])
  {
    if t != [] && IsSpace(t[0]) then SkipSpaces(t[1..]) else t
  }

  /** `rstrip`: drops the trailing whitespace. */
  function StripRight(t: string): (r: string)
    ensures |r| <= |t| && r == t[..|r|]
    ensures r == [] || !IsSpace(r[|r| - 1])
    ensures forall k :: |r| <= k < |t| ==> IsSpace(t[k])
  {
    if t != [] && IsSpace(t[|t| - 1]) then StripRight(t[..|t| - 1]) else t
  }

  /** `gsub(/\s+/, ' ')`: every run of whitespace becomes a single space. */
  function Collapse(t: string): (r: string)
    ensures t == [] <==> r == []
    ensures t != [] && IsSpace(t[0]) ==> r[0] == ' '
    ensures t != [] && !IsSpace(t[0]) ==> r[0] == t[0]
    decreases |t|
  {
    if t == [] then []
    else if IsSpace(t[0]) then [' '] + Collapse(SkipSpaces(t[1..]))
    else [t[0]] + Collapse(t[1..])
  }

  /** `squish`: collapse the whitespace and strip; nil (None) when nothing is left. */
  function Squish(t: string): Option<string>
  {
    var x := StripRight(SkipSpaces(Collapse(t)));
    if x == [] then None else Some(x)
  }

  /** The only whitespace is single spaces. */
  ghost predicate Tidy(t: string)
  {
    && (forall k :: 0 <= k < |t| && IsSpace(t[k]) ==> t[k] == ' ')
    && (forall k :: 0 <= k < |t| ==> SingleSpace(t, k))
  }

  /** The character at `k` is no space, or the last one, or followed by something other than a space. */
  predicate SingleSpace(t: string, k: nat)
    requires k < |t|
  {
    t[k] == ' ' && k + 1 < |t| ==> t[k + 1] != ' '
  }

  /** A character that is no whitespace, or a space, put before a tidy string not starting with a space, keeps it tidy. */
  lemma ConsTidy(c: char, r: string)
    requires Tidy(r) && (IsSpace(c) ==> c == ' ') && (c == ' ' && r != [] ==> r[0] != ' ')
    ensures Tidy([c] + r)
  {
    var t := [c] + r;
    forall k | 0 <= k < |t|
      ensures SingleSpace(t, k)
    {
      if 0 < k && k + 1 < |t| {
        assert SingleSpace(r, k - 1);
      }
    }
  }

  /** What `squish` returns: non-empty, tidy, and neither starting nor ending with a space. */
  ghost predicate Squished(t: string)
  {
    t != [] && Tidy(t) && t[0] != ' ' && t[|t| - 1] != ' '
  }

  /** The characters that are not whitespace, in order. */
  function Visible(t: string): (r: string)
  {
    if t == [] then [] else (if IsSpace(t[0]) then [] else [t[0]]) + Visible(t[1..])
  }

  lemma {:induction false} VisibleAppend(a: string, b: string)
    ensures Visible(a + b) == Visible(a) + Visible(b)
  {
    if a != [] {
      var head := if IsSpace(a[0]) then [] else [a[0]];
      assert (a + b)[0] == a[0];
      assert (a + b)[1..] == a[1..] + b;
      VisibleAppend(a[1..], b);
      assert Visible(a + b) == head + Visible(a[1..] + b);
      assert Visible(a) == head + Visible(a[1..]);
    } else {
      assert a + b == b;
    }
  }

  /** Only whitespace has nothing visible. */
  lemma {:induction false} VisibleEmpty(t: string)
    ensures Visible(t) == [] <==> forall k :: 0 <= k < |t| ==> IsSpace(t[k])
  {
    if t != [] {
      VisibleEmpty(t[1..]);
      assert forall k :: 1 <= k < |t| ==> t[k] == t[1..][k - 1];
    }
  }

  lemma {:induction false} CollapseTidy(t: string)
    ensures Tidy(Collapse(t))
    decreases |t|
  {
    if t != [] {
      if IsSpace(t[0]) {
        CollapseTidy(SkipSpaces(t[1..]));
        ConsTidy(' ', Collapse(SkipSpaces(t[1..])));
      } else {
        CollapseTidy(t[1..]);
        ConsTidy(t[0], Collapse(t[1..]));
      }
    }
  }

  lemma {:induction false} CollapseVisible(t: string)
    ensures Visible(Collapse(t)) == Visible(t)
    decreases |t|
  {
    if t != [] {
      var r := Collapse(t);
      if IsSpace(t[0]) {
        var u := SkipSpaces(t[1..]);
        CollapseVisible(u);
        VisibleAppend([' '], Collapse(u));
        SkipVisible(t[1..]);
        assert r[1..] == Collapse(u);
      } else {
        CollapseVisible(t[1..]);
        assert r[1..] == Collapse(t[1..]);
      }
    }
  }

  lemma {:induction false} SkipVisible(t: string)
    ensures Visible(SkipSpaces(t)) == Visible(t)
  {
    if t != [] && IsSpace(t[0]) {
      SkipVisible(t[1..]);
    }
  }

  lemma {:induction false} StripRightVisible(t: string)
    ensures Visible(StripRight(t)) == Visible(t)
  {
    if t != [] && IsSpace(t[|t| - 1]) {
      var p := t[..|t| - 1];
      StripRightVisible(p);
      assert t == p + [t[|t| - 1]];
      VisibleAppend(p, [t[|t| - 1]]);
    }
  }

  /** A tidy string is its own collapse. */
  lemma {:induction false} TidyCollapse(t: string)
    requires Tidy(t)
    ensures Collapse(t) == t
    decreases |t|
  {
    if t != [] {
      TidySlice(t, 1, |t|);
      assert t[1..|t|] == t[1..];
      TidyCollapse(t[1..]);
      if IsSpace(t[0]) {
        assert SingleSpace(t, 0);
        assert |t| > 1 ==> !IsSpace(t[1]);
        assert SkipSpaces(t[1..]) == t[1..];
      }
    }
  }

  /**
   * `squish` gives nil exactly for blank text; otherwise a squished string
   * holding the same visible characters in the same order.
   */
  lemma SquishNormalises(t: string)
    ensures Squish(t).None? <==> Visible(t) == []
    ensures Squish(t).Some? ==> Squished(Squish(t).value) && Visible(Squish(t).value) == Visible(t)
  {
    SquishBlank(t);
    SquishTidy(t);
  }

  lemma SquishBlank(t: string)
    ensures Squish(t).None? <==> Visible(t) == []
    ensures Squish(t).Some? ==> Visible(Squish(t).value) == Visible(t)
  {
    var c := Collapse(t);
    var l := SkipSpaces(c);
    var x := StripRight(l);
    CollapseVisible(t);
    SkipVisible(c);
    StripRightVisible(l);
    VisibleEmpty(x);
  }

  lemma SquishTidy(t: string)
    ensures Squish(t).Some? ==> Squished(Squish(t).value)
  {
    var c := Collapse(t);
    var l := SkipSpaces(c);
    var x := StripRight(l);
    CollapseTidy(t);
    assert x == c[|c| - |l|..|c| - |l| + |x|];
    TidySlice(c, |c| - |l|, |c| - |l| + |x|);
  }

  /** Any piece of a tidy string is tidy. */
  lemma TidySlice(t: string, i: nat, j: nat)
    requires i <= j <= |t| && Tidy(t)
    ensures Tidy(t[i..j])
  {
    var p := t[i..j];
    forall k | 0 <= k < |p|
      ensures p[k] == t[i + k] && SingleSpace(p, k)
    {
      assert SingleSpace(t, i + k);
    }
  }

  /** A squished string is left as it is: `squish` is idempotent. */
  lemma SquishedFixed(t: string)
    requires Squished(t)
    ensures Squish(t) == Some(t)
  {
    TidyCollapse(t);
  }

  // ---------------------------------------------------------------------
  // comment?

  /** `comment?`: the text starts with `#`. */
  predicate IsComment(t: string)
  {
    |t| > 0 && t[0] == '#'
  }

  /** Empty text is no comment, more text after it does not change the answer, and a leading space defeats it. */
  lemma CommentDetection(t: string, more: string)
    ensures !IsComment([])
    ensures t != [] ==> IsComment(t + more) == IsComment(t)
    ensures !IsComment([' '] + t)
  {
  }

  // ---------------------------------------------------------------------
  // Nouns and verbs

  /** The first letter of a noun word: not a-z, not `;`, not a space. */
  predicate NounStart(c: char)
  {
    !IsLower(c) && c != ';' && c != ' '
  }

  /** Noun PATTERN: words separated by single spaces, none starting with a-z, no `;` anywhere. */
  predicate NounValid(t: string)
  {
    && t != [] && NounStart(t[0])
    && (forall k :: 0 <= k < |t| ==> t[k] != ';')
    && (forall k :: 0 <= k < |t| ==> NounSpace(t, k))
  }

  /** A space at `k` starts another noun word. */
  predicate NounSpace(t: string, k: nat)
    requires k < |t|
  {
    t[k] == ' ' ==> k + 1 < |t| && NounStart(t[k + 1])
  }

  /** A space at `k` starts another verb word. */
  predicate VerbSpace(t: string, k: nat)
    requires k < |t|
  {
    t[k] == ' ' ==> k + 1 < |t| && IsLower(t[k + 1])
  }

  /** Verb PATTERN: words separated by single spaces, each starting with a-z. */
  predicate VerbValid(t: string)
  {
    && t != [] && IsLower(t[0])
    && (forall k :: 0 <= k < |t| ==> VerbSpace(t, k))
  }

  function Upcase(c: char): (r: char)
  {
    if IsLower(c) then (c as int - 32) as char else c
  }

  function Downcase(c: char): (r: char)
  {
    if IsUpper(c) then (c as int + 32) as char else c
  }

  /** `gsub(/(^|\s)[a-z]/) { |l| l.upcase }`: a letter a-z that starts a word becomes upper case. */
  function Capitalise(t: string): (r: string)
    ensures |r| == |t|
  {
    seq(|t|, k requires 0 <= k < |t| => if k == 0 || IsSpace(t[k - 1]) then Upcase(t[k]) else t[k])
  }

  /** `downcase`, on the letters A-Z. */
  function DowncaseAll(t: string): (r: string)
    ensures |r| == |t|
  {
    seq(|t|, k requires 0 <= k < |t| => Downcase(t[k]))
  }

  lemma DowncaseLower(t: string)
    ensures forall k :: 0 <= k < |t| ==> !IsUpper(DowncaseAll(t)[k])
  {
  }

  /** Text without A-Z is its own downcase. */
  lemma LowerDowncase(t: string)
    requires forall k :: 0 <= k < |t| ==> !IsUpper(t[k])
    ensures DowncaseAll(t) == t
  {
  }

  const InvalidNoun: string := "Invalid noun"
  const InvalidVerb: string := "Invalid verb"
  /** What calling a string method on the nil that `squish` gives for blank text raises. */
  const NilReceiver: string := "undefined method for nil"

  /** `Noun.parse`: squish, capitalise each word, and check PATTERN. */
  function ParseNoun(text: string): (r: Result<string>)
  {
    match Squish(text)
    case None => Err(NilReceiver)
    case Some(t) =>
      var n := Capitalise(t);
      if NounValid(n) then Ok(n) else Err(InvalidNoun)
  }

  /** `Verb.parse`: squish, downcase, and check PATTERN. */
  function ParseVerb(text: string): (r: Result<string>)
  {
    match Squish(text)
    case None => Err(NilReceiver)
    case Some(t) =>
      var v := DowncaseAll(t);
      if VerbValid(v) then Ok(v) else Err(InvalidVerb)
  }

  /** Capitalising and downcasing change letters only, never whitespace. */
  lemma CaseKeepsSquished(t: string)
    requires Squished(t)
    ensures Squished(Capitalise(t)) && Squished(DowncaseAll(t))
  {
    var c, d := Capitalise(t), DowncaseAll(t);
    forall k | 0 <= k < |t|
      ensures SameKind(t[k], c[k]) && SameKind(t[k], d[k])
    {
      assert c[k] == t[k] || c[k] == Upcase(t[k]);
      assert d[k] == Downcase(t[k]);
    }
    SameKindsSquished(t, c);
    SameKindsSquished(t, d);
  }

  /** Two characters that are both the space, both other whitespace, or both neither. */
  predicate SameKind(a: char, b: char)
  {
    (a == ' ' <==> b == ' ') && (IsSpace(a) <==> IsSpace(b))
  }

  lemma SameKindsSquished(t: string, u: string)
    requires Squished(t) && |u| == |t|
    requires forall k :: 0 <= k < |t| ==> SameKind(t[k], u[k])
    ensures Squished(u)
  {
    forall k | 0 <= k < |u|
      ensures SingleSpace(u, k)
    {
      assert SingleSpace(t, k);
      if k + 1 < |u| {
        assert SameKind(t[k + 1], u[k + 1]);
      }
    }
  }

  /** A squished, valid noun has no word to capitalise. */
  lemma NounCapitalised(t: string)
    requires NounValid(t) && Tidy(t)
    ensures Capitalise(t) == t
  {
    forall k | 0 <= k < |t|
      ensures Capitalise(t)[k] == t[k]
    {
      if k > 0 && IsSpace(t[k - 1]) {
        assert t[k - 1] == ' ' && NounSpace(t, k - 1);
      }
    }
  }

  /**
   * A parsed noun is squished, valid, and starts no word with a-z; blank
   * text is refused; and parsing a parsed noun gives it back.
   */
  lemma ParseNounProperties(text: string)
    ensures Visible(text) == [] ==> ParseNoun(text).Err?
    ensures ParseNoun(text).Ok? ==> var n := ParseNoun(text).value;
      Squished(n) && NounValid(n) && ParseNoun(n) == Ok(n) &&
      forall k :: 0 <= k < |n| && (k == 0 || n[k - 1] == ' ') ==> !IsLower(n[k])
  {
    SquishNormalises(text);
    if ParseNoun(text).Ok? {
      var n := ParseNoun(text).value;
      CaseKeepsSquished(Squish(text).value);
      SquishedFixed(n);
      NounCapitalised(n);
      forall k | 0 < k < |n| && n[k - 1] == ' '
        ensures !IsLower(n[k])
      {
        assert NounSpace(n, k - 1);
      }
    }
  }

  /** A parsed verb is squished, valid, free of A-Z; blank text is refused; and parsing a parsed verb gives it back. */
  lemma ParseVerbProperties(text: string)
    ensures Visible(text) == [] ==> ParseVerb(text).Err?
    ensures ParseVerb(text).Ok? ==> var v := ParseVerb(text).value;
      Squished(v) && VerbValid(v) && ParseVerb(v) == Ok(v) && forall k :: 0 <= k < |v| ==> !IsUpper(v[k])
  {
    SquishNormalises(text);
    if ParseVerb(text).Ok? {
      var t := Squish(text).value;
      var v := ParseVerb(text).value;
      assert v == DowncaseAll(t);
      CaseKeepsSquished(t);
      DowncaseLower(t);
      SquishedFixed(v);
      LowerDowncase(v);
    }
  }

  // ---------------------------------------------------------------------
  // Statements

  datatype Statement = Statement(subject: string, verb: string, obj: string)

  /** A space that starts a word of the given kind: a-z (a verb word) or not (a noun word). */
  predicate Boundary(l: string, k: nat, lower: bool)
  {
    k + 1 < |l| && l[k] == ' ' && IsLower(l[k + 1]) == lower
  }

  /** The first such space at or after `from`. */
  function FirstBoundary(l: string, from: nat, lower: bool): (r: Option<nat>)
    ensures r.Some? ==> from <= r.value && Boundary(l, r.value, lower)
    ensures forall k :: from <= k < (if r.Some? then r.value else |l|) ==> !Boundary(l, k, lower)
    decreases |l| - from
  {
    if from + 1 >= |l| then None
    else if Boundary(l, from, lower) then Some(from)
    else FirstBoundary(l, from + 1, lower)
  }

  /** The first boundary from `from` is the boundary that no earlier position is. */
  lemma FirstBoundaryIs(l: string, from: nat, lower: bool, j: nat)
    requires from <= j && Boundary(l, j, lower)
    requires forall k :: from <= k < j ==> !Boundary(l, k, lower)
    ensures FirstBoundary(l, from, lower) == Some(j)
  {
  }

  /**
   * FORMAT: the subject runs to the first space before an a-z word, the
   * verb from there to the first space before a word that is not a-z, and
   * the object is the rest; each part must then match its PATTERN.
   */
  function MatchFormat(l: string): Option<(string, string, string)>
  {
    match FirstBoundary(l, 0, true)
    case None => None
    case Some(i) =>
      match FirstBoundary(l, i + 1, false)
      case None => None
      case Some(j) =>
        var s, v, o := l[..i], l[i + 1..j], l[j + 1..];
        if NounValid(s) && VerbValid(v) && NounValid(o) then Some((s, v, o)) else None
  }

  /** A match is the line cut into a valid subject, verb and object at two single spaces. */
  lemma MatchFormatSound(l: string)
    ensures MatchFormat(l).Some? ==> var (s, v, o) := MatchFormat(l).value;
      l == s + [' '] + v + [' '] + o && NounValid(s) && VerbValid(v) && NounValid(o)
  {
    if MatchFormat(l).Some? {
      var i := FirstBoundary(l, 0, true).value;
      var j := FirstBoundary(l, i + 1, false).value;
      assert l == l[..i] + [' '] + l[i + 1..j] + [' '] + l[j + 1..];
    }
  }

  /**
   * The split is unique: any line made of a valid subject, verb and object
   * joined by single spaces matches FORMAT with exactly those parts.
   */
  lemma MatchFormatComplete(s: string, v: string, o: string)
    requires NounValid(s) && VerbValid(v) && NounValid(o)
    ensures MatchFormat(s + [' '] + v + [' '] + o) == Some((s, v, o))
  {
    var l := s + [' '] + v + [' '] + o;
    var i, j := |s|, |s| + 1 + |v|;
    SubjectEnds(s, v, o);
    VerbEnds(s, v, o);
    assert l[..i] == s && l[i + 1..j] == v && l[j + 1..] == o;
  }

  /** The first subject boundary of the joined line is the space after the subject. */
  lemma SubjectEnds(s: string, v: string, o: string)
    requires NounValid(s) && VerbValid(v) && NounValid(o)
    ensures FirstBoundary(s + [' '] + v + [' '] + o, 0, true) == Some(|s|)
  {
    var l := s + [' '] + v + [' '] + o;
    var i := |s|;
    assert Boundary(l, i, true);
    forall k | 0 <= k < i
      ensures !Boundary(l, k, true)
    {
      assert l[k] == s[k];
      if l[k] == ' ' {
        assert NounSpace(s, k);
        assert l[k + 1] == s[k + 1];
      }
    }
    FirstBoundaryIs(l, 0, true, i);
  }

  /** The first verb boundary after the subject is the space after the verb. */
  lemma VerbEnds(s: string, v: string, o: string)
    requires VerbValid(v) && o != [] && !IsLower(o[0])
    ensures FirstBoundary(s + [' '] + v + [' '] + o, |s| + 1, false) == Some(|s| + 1 + |v|)
  {
    var l := s + [' '] + v + [' '] + o;
    var i, j := |s|, |s| + 1 + |v|;
    var head := s + [' '] + v + [' '];
    assert l == head + o && |head| == j + 1;
    assert l[j] == head[j] == ' ' && l[j + 1] == o[0];
    VerbInside(s, v, o);
    FirstBoundaryIs(l, i + 1, false, j);
  }

  /** Inside the verb every space starts another a-z word. */
  lemma VerbInside(s: string, v: string, o: string)
    requires VerbValid(v)
    ensures var l := s + [' '] + v + [' '] + o;
      forall k :: |s| + 1 <= k < |s| + 1 + |v| ==> !Boundary(l, k, false)
  {
    var l := s + [' '] + v + [' '] + o;
    var i := |s|;
    forall k | i + 1 <= k < i + 1 + |v|
      ensures !Boundary(l, k, false)
    {
      assert l[k] == v[k - i - 1];
      if l[k] == ' ' {
        assert VerbSpace(v, k - i - 1);
        assert l[k + 1] == v[k - i];
      }
    }
  }

  /** `Statement.assemble`: parses the subject, then the verb, then the object. */
  function Assemble(s: string, v: string, o: string): (r: Result<Statement>)
  {
    match ParseNoun(s)
    case Err(e) => Err(e)
    case Ok(subject) =>
      match ParseVerb(v)
      case Err(e) => Err(e)
      case Ok(verb) =>
        match ParseNoun(o)
        case Err(e) => Err(e)
        case Ok(obj) => Ok(Statement(subject, verb, obj))
  }

  /** `each_line`: the text cut after every line feed, each piece keeping its own. */
  function EachLine(text: string): (r: seq<string>)
    decreases |text|
  {
    if text == [] then []
    else
      match FirstNewline(text, 0)
      case None => [text]
      case Some(i) => [text[..i + 1]] + EachLine(text[i + 1..])
  }

  function FirstNewline(t: string, from: nat): (r: Option<nat>)
    ensures r.Some? ==> from <= r.value < |t| && t[r.value] == '\n'
    ensures forall k :: from <= k < (if r.Some? then r.value else |t|) ==> t[k] != '\n'
    decreases |t| - from
  {
    if from >= |t| then None
    else if t[from] == '\n' then Some(from)
    else FirstNewline(t, from + 1)
  }

  function Concat(ls: seq<string>): string
  {
    if ls == [] then [] else ls[0] + Concat(ls[1..])
  }

  /** The lines put back together are the text; each line ends at its only line feed, if it has one. */
  lemma {:induction false} EachLineSplits(text: string)
    ensures Concat(EachLine(text)) == text
    ensures forall n, k :: 0 <= n < |EachLine(text)| && 0 <= k < |EachLine(text)[n]| - 1 ==> EachLine(text)[n][k] != '\n'
    ensures forall n :: 0 <= n < |EachLine(text)| ==> EachLine(text)[n] != []
    decreases |text|
  {
    if text != [] {
      match FirstNewline(text, 0)
      case None =>
        assert EachLine(text) == [text];
      case Some(i) =>
        EachLineSplits(text[i + 1..]);
        var ls := EachLine(text);
        assert ls[1..] == EachLine(text[i + 1..]);
        assert text == text[..i + 1] + text[i + 1..];
    }
  }

  /** `map(&:squish).compact.reject(&:comment?)`: the squished lines that are neither blank nor comments. */
  function Kept(lines: seq<string>): (r: seq<string>)
    ensures |r| <= |lines|
  {
    if lines == [] then []
    else
      var rest := Kept(lines[1..]);
      match Squish(lines[0])
      case None => rest
      case Some(l) => if IsComment(l) then rest else [l] + rest
  }

  /** The statements of the kept lines, in order; the first line not matching FORMAT is raised. */
  function ParseKept(ls: seq<string>): (r: Result<seq<Statement>>)
  {
    if ls == [] then Ok([])
    else
      match ParseLine(ls[0])
      case Err(e) => Err(e)
      case Ok(st) =>
        match ParseKept(ls[1..])
        case Err(e) => Err(e)
        case Ok(rest) => Ok([st] + rest)
  }

  /** One kept line: its FORMAT parts assembled, or the line itself raised. */
  function ParseLine(l: string): Result<Statement>
  {
    match MatchFormat(l)
    case None => Err(l)
    case Some((s, v, o)) => Assemble(s, v, o)
  }

  /** `Statement.parse`. */
  function Parse(text: string): Result<seq<Statement>>
  {
    ParseKept(Kept(EachLine(text)))
  }

  /** What a statement parsed from a line looks like: squished parts, valid, the verb in lower case, and no comment. */
  ghost predicate WellParsed(st: Statement)
  {
    && Squished(st.subject) && NounValid(st.subject) && st.subject[0] != '#'
    && Squished(st.verb) && VerbValid(st.verb) && (forall k :: 0 <= k < |st.verb| ==> !IsUpper(st.verb[k]))
    && Squished(st.obj) && NounValid(st.obj)
  }

  /** `to_s`: the three parts joined by single spaces. */
  function ToString(st: Statement): (r: string)
  {
    st.subject + [' '] + st.verb + [' '] + st.obj
  }

  /** Every kept line is squished and no comment. */
  ghost predicate AllKept(ls: seq<string>)
  {
    ls == [] || (Squished(ls[0]) && !IsComment(ls[0]) && AllKept(ls[1..]))
  }

  /** Every statement is well parsed. */
  ghost predicate AllWellParsed(sts: seq<Statement>)
  {
    sts == [] || (WellParsed(sts[0]) && AllWellParsed(sts[1..]))
  }

  /** Every line matches FORMAT. */
  predicate AllMatch(ls: seq<string>)
  {
    ls == [] || (MatchFormat(ls[0]).Some? && AllMatch(ls[1..]))
  }

  lemma {:induction false} KeptLines(lines: seq<string>)
    ensures AllKept(Kept(lines))
  {
    if lines != [] {
      KeptLines(lines[1..]);
      SquishNormalises(lines[0]);
    }
  }

  /** A squished, valid noun parses to itself. */
  lemma NounFixed(s: string)
    requires Squished(s) && NounValid(s)
    ensures ParseNoun(s) == Ok(s)
  {
    SquishedFixed(s);
    NounCapitalised(s);
  }

  /** A squished, valid verb parses to its downcase, which is squished, valid and free of A-Z. */
  lemma VerbLowered(v: string)
    requires Squished(v) && VerbValid(v)
    ensures ParseVerb(v) == Ok(DowncaseAll(v))
    ensures var d := DowncaseAll(v); Squished(d) && VerbValid(d) && forall k :: 0 <= k < |d| ==> !IsUpper(d[k])
  {
    SquishedFixed(v);
    CaseKeepsSquished(v);
    DowncaseLower(v);
    DowncaseKeepsVerb(v);
  }

  /** Downcasing a valid verb keeps it valid. */
  lemma DowncaseKeepsVerb(v: string)
    requires VerbValid(v)
    ensures VerbValid(DowncaseAll(v))
  {
    var d := DowncaseAll(v);
    DowncaseKeeps(v[0]);
    forall k | 0 <= k < |d|
      ensures VerbSpace(d, k)
    {
      assert VerbSpace(v, k);
      DowncaseKeeps(v[k]);
      if k + 1 < |v| {
        DowncaseKeeps(v[k + 1]);
      }
    }
  }

  /** Downcasing keeps spaces and a-z, and makes nothing else a space. */
  lemma DowncaseKeeps(c: char)
    ensures Downcase(c) == ' ' <==> c == ' '
    ensures IsLower(c) ==> Downcase(c) == c
  {
  }

  /**
   * Once a line matches FORMAT, assembling its parts cannot fail: the
   * statement is the subject, the downcased verb and the object, and it
   * is well parsed.
   */
  lemma LineParsed(l: string)
    requires Squished(l) && !IsComment(l) && MatchFormat(l).Some?
    ensures var (s, v, o) := MatchFormat(l).value;
      ParseLine(l) == Ok(Statement(s, DowncaseAll(v), o)) && WellParsed(Statement(s, DowncaseAll(v), o))
  {
    var (s, v, o) := MatchFormat(l).value;
    MatchFormatSound(l);
    PartsSquished(l, s, v, o);
    NounFixed(s);
    VerbLowered(v);
    NounFixed(o);
    assert s[0] == l[0];
  }

  /** The parts of a squished line that matches FORMAT are squished. */
  lemma PartsSquished(l: string, s: string, v: string, o: string)
    requires Squished(l) && l == s + [' '] + v + [' '] + o
    requires NounValid(s) && VerbValid(v) && NounValid(o)
    ensures Squished(s) && Squished(v) && Squished(o)
  {
    assert NounSpace(s, |s| - 1) && VerbSpace(v, |v| - 1);
    TidySlice(l, 0, |s|);
    assert l[0..|s|] == s;
    TidySlice(l, |s| + 1, |s| + 1 + |v|);
    assert l[|s| + 1..|s| + 1 + |v|] == v;
    TidySlice(l, |s| + |v| + 2, |l|);
    assert l[|s| + |v| + 2..|l|] == o;
  }

  /** A kept line parses exactly when it matches FORMAT; otherwise the line itself is raised. */
  lemma LineMatches(l: string)
    requires Squished(l) && !IsComment(l)
    ensures ParseLine(l).Ok? <==> MatchFormat(l).Some?
    ensures ParseLine(l).Err? ==> ParseLine(l).error == l
  {
    if MatchFormat(l).Some? {
      LineParsed(l);
    }
  }

  /** The kept lines parse exactly when every one matches FORMAT. */
  lemma {:induction false} ParseKeptMatches(ls: seq<string>)
    requires AllKept(ls)
    ensures ParseKept(ls).Ok? <==> AllMatch(ls)
  {
    if ls != [] {
      ParseKeptMatches(ls[1..]);
      LineMatches(ls[0]);
    }
  }

  /** When they parse, there is one statement per line. */
  lemma {:induction false} ParseKeptCount(ls: seq<string>)
    ensures ParseKept(ls).Ok? ==> |ParseKept(ls).value| == |ls|
  {
    if ls != [] {
      ParseKeptCount(ls[1..]);
    }
  }

  /** Each of them well parsed. */
  lemma {:induction false} ParseKeptProperties(ls: seq<string>)
    requires AllKept(ls)
    ensures ParseKept(ls).Ok? ==> AllWellParsed(ParseKept(ls).value)
  {
    if ls != [] {
      ParseKeptProperties(ls[1..]);
      if ParseKept(ls).Ok? {
        LineParsed(ls[0]);
        var st := ParseLine(ls[0]).value;
        var rest := ParseKept(ls[1..]).value;
        assert ParseKept(ls).value == [st] + rest;
        assert ([st] + rest)[1..] == rest;
      }
    }
  }

  /** How many lines, from the first, match FORMAT. */
  function MatchedPrefix(ls: seq<string>): (n: nat)
    ensures n <= |ls|
  {
    if ls == [] || MatchFormat(ls[0]).None? then 0 else 1 + MatchedPrefix(ls[1..])
  }

  /** The lines before the matched prefix's end all match, and the line at its end does not. */
  lemma {:induction false} MatchedPrefixFirst(ls: seq<string>)
    ensures AllMatch(ls[..MatchedPrefix(ls)])
    ensures MatchedPrefix(ls) < |ls| ==> MatchFormat(ls[MatchedPrefix(ls)]).None?
  {
    if ls != [] && MatchFormat(ls[0]).Some? {
      MatchedPrefixFirst(ls[1..]);
      assert ls[..MatchedPrefix(ls)][1..] == ls[1..][..MatchedPrefix(ls[1..])];
    }
  }

  /** Otherwise the first line that does not match FORMAT is raised. */
  lemma {:induction false} ParseKeptError(ls: seq<string>)
    requires AllKept(ls)
    ensures ParseKept(ls).Err? ==> MatchedPrefix(ls) < |ls| && ParseKept(ls).error == ls[MatchedPrefix(ls)]
  {
    if ls != [] {
      LineMatches(ls[0]);
      if ParseLine(ls[0]).Ok? {
        ParseKeptError(ls[1..]);
        RestRaised(ls);
      }
    }
  }

  /** When the first line parses, the error raised is the one the remaining lines raise, one position on. */
  lemma RestRaised(ls: seq<string>)
    requires ls != [] && ParseLine(ls[0]).Ok? && MatchFormat(ls[0]).Some?
    requires ParseKept(ls[1..]).Err? ==>
      MatchedPrefix(ls[1..]) < |ls[1..]| && ParseKept(ls[1..]).error == ls[1..][MatchedPrefix(ls[1..])]
    ensures ParseKept(ls).Err? ==> MatchedPrefix(ls) < |ls| && ParseKept(ls).error == ls[MatchedPrefix(ls)]
  {
    if ParseKept(ls).Err? {
      assert ParseKept(ls[1..]).Err?;
      assert ls[1..][MatchedPrefix(ls[1..])] == ls[1 + MatchedPrefix(ls[1..])];
    }
  }

  /**
   * `Statement.parse` gives one well-parsed statement per line that is
   * neither blank nor a comment when every such line matches FORMAT, and
   * raises the first such line that does not.
   */
  lemma ParseProperties(text: string)
    ensures var kept := Kept(EachLine(text));
      && (Parse(text).Ok? <==> AllMatch(kept))
      && (Parse(text).Ok? ==> |Parse(text).value| == |kept| && AllWellParsed(Parse(text).value))
      && (Parse(text).Err? ==> MatchedPrefix(kept) < |kept| && Parse(text).error == kept[MatchedPrefix(kept)])
  {
    KeptLines(EachLine(text));
    ParseKeptMatches(Kept(EachLine(text)));
    ParseKeptCount(Kept(EachLine(text)));
    ParseKeptProperties(Kept(EachLine(text)));
    ParseKeptError(Kept(EachLine(text)));
    MatchedPrefixFirst(Kept(EachLine(text)));
  }

  /** Re-parsing a parsed statement's `to_s` gives back that statement, alone. */
  lemma ToStringRoundTrip(st: Statement)
    requires WellParsed(st)
    ensures Parse(ToString(st)).Ok? && Parse(ToString(st)).value == [st]
  {
    var t := ToString(st);
    JoinSquished(st.subject, st.verb);
    JoinSquished(st.subject + [' '] + st.verb, st.obj);
    KeptSingle(t);
    LineRoundTrip(st);
    SingleParsed([t], st);
  }

  lemma SingleParsed(ls: seq<string>, st: Statement)
    requires |ls| == 1 && ParseLine(ls[0]) == Ok(st)
    ensures ParseKept(ls).Ok? && ParseKept(ls).value == [st]
  {
    assert ParseKept(ls[1..]) == Ok([]);
    assert ParseKept(ls).value == [st] + [];
  }

  /** A squished line that is no comment is kept as it is, alone. */
  lemma KeptSingle(t: string)
    requires Squished(t) && !IsComment(t)
    ensures Kept(EachLine(t)) == [t]
  {
    SingleLine(t);
    SquishedFixed(t);
  }

  /** The `to_s` of a well-parsed statement, as a kept line, parses back to it. */
  lemma LineRoundTrip(st: Statement)
    requires WellParsed(st)
    ensures ParseLine(ToString(st)) == Ok(st)
  {
    MatchFormatComplete(st.subject, st.verb, st.obj);
    NounFixed(st.subject);
    VerbLowered(st.verb);
    NounFixed(st.obj);
    LowerDowncase(st.verb);
  }

  /** Two squished strings joined by a single space make a squished string. */
  lemma JoinSquished(a: string, b: string)
    requires Squished(a) && Squished(b)
    ensures Squished(a + [' '] + b)
  {
    var t := a + [' '] + b;
    forall k | 0 <= k < |t|
      ensures SingleSpace(t, k) && (IsSpace(t[k]) ==> t[k] == ' ')
    {
      if k < |a| {
        assert t[k] == a[k] && SingleSpace(a, k);
        if k + 1 < |a| { assert t[k + 1] == a[k + 1]; }
      } else if k == |a| {
        assert t[k + 1] == b[0];
      } else {
        assert t[k] == b[k - |a| - 1] && SingleSpace(b, k - |a| - 1);
        if k + 1 < |t| { assert t[k + 1] == b[k - |a|]; }
      }
    }
  }

  /** A tidy string is a single line. */
  lemma SingleLine(t: string)
    requires Tidy(t) && t != []
    ensures EachLine(t) == [t]
  {
    assert FirstNewline(t, 0).None? by {
      assert forall k :: 0 <= k < |t| ==> t[k] != '\n';
    }
  }

  /**
   * `assemble` accepts a subject starting with `#`, which no parsed line
   * can have; that statement's `to_s` then reads as a comment and
   * re-parses to no statement at all.
   */
  lemma AssembledCommentLost(s: string, v: string, o: string)
    requires Squished(s) && NounValid(s) && s[0] == '#'
    requires Squished(v) && VerbValid(v) && forall k :: 0 <= k < |v| ==> !IsUpper(v[k])
    requires Squished(o) && NounValid(o)
    ensures Assemble(s, v, o).Ok? && Assemble(s, v, o).value == Statement(s, v, o)
    ensures Parse(ToString(Statement(s, v, o))).Ok? && Parse(ToString(Statement(s, v, o))).value == []
  {
    NounFixed(s);
    VerbLowered(v);
    LowerDowncase(v);
    NounFixed(o);
    JoinSquished(s, v);
    JoinSquished(s + [' '] + v, o);
    CommentLineDropped(ToString(Statement(s, v, o)));
  }

  /** A squished comment line parses to no statement. */
  lemma CommentLineDropped(t: string)
    requires Squished(t) && IsComment(t)
    ensures Parse(t).Ok? && Parse(t).value == []
  {
    SingleLine(t);
    SquishedFixed(t);
    assert Kept(EachLine(t)) == [];
  }

  /** `eql?`/`==`: part by part; `hash`: the exclusive or of the parts' hashes, for any hash of strings. */
  function Hash(st: Statement, hashOf: string -> bv64): (h: bv64)
  {
    hashOf(st.subject) ^ hashOf(st.verb) ^ hashOf(st.obj)
  }

  /** Equal statements hash alike; swapping subject and object keeps the hash. */
  lemma HashAgrees(a: Statement, b: Statement, hashOf: string -> bv64)
    ensures a == b ==> Hash(a, hashOf) == Hash(b, hashOf)
    ensures a == Statement(b.obj, b.verb, b.subject) ==> Hash(a, hashOf) == Hash(b, hashOf)
  {
  }
}

/**
  The blog post page: the post looked up by slug (or a redirect), up to two related
  posts, and the line-by-line renderer of the site's small markdown subset, which
  emits h2 and h3 headings, bold lines, bullet lists, italic lines and paragraphs
  with inline bold.
 */
module BlogPost {
  import opened Optional
  import opened Strings
  import opened Posts

  // ---------------------------------------------------------------- inline bold, /\*\*(.*?)\*\*/g

  /** Whether a `**` starts at position `j` of `t`. */
  predicate PairAt(t: string, j: int) {
    0 <= j && j + 1 < |t| && t[j] == '*' && t[j + 1] == '*'
  }

  lemma PairStarts(t: string)
    ensures PairAt(t, 0) <==> StartsWith(t, "**")
  {
    if |t| >= 2 {
      assert t[..2] == [t[0], t[1]];
    }
  }

  /** Where the shortest text free of line terminators (the lazy `.*?`) runs into a closing
      `**` in `t`, if anywhere: the first `**`, provided no line terminator comes before it. */
  function CloseAt(t: string): (r: Option<nat>)
    ensures r.Some? ==> PairAt(t, r.value)
    ensures r.Some? ==> forall i :: 0 <= i < r.value ==> !IsLineTerminator(t[i]) && !PairAt(t, i)
    ensures r.None? ==> forall j :: PairAt(t, j) ==> exists i :: 0 <= i < j && IsLineTerminator(t[i])
    decreases |t|
  {
    PairStarts(t);
    if StartsWith(t, "**") then Some(0)
    else if t == [] || IsLineTerminator(t[0]) then None
    else
      match CloseAt(t[1..])
      case Some(n) => Some(n + 1)
      case None =>
        assert forall j :: PairAt(t, j) ==> j >= 1 && PairAt(t[1..], j - 1);
        None
  }

  /** Positions `j` of `t[2..]` are positions `j + 2` of `t`. */
  lemma PairShift(t: string)
    requires |t| >= 2
    ensures forall j :: 0 <= j ==> (PairAt(t[2..], j) <==> PairAt(t, j + 2))
  {
  }

  /** The length of the text inside a `**...**` span that starts `s`, if one does: the text
      runs to the first `**` after the opening one, and holds no line terminator. There is
      none exactly when `s` does not open with `**`, or every later `**` has a line
      terminator before it. */
  function BoldAt(s: string): (r: Option<nat>)
    ensures r.Some? ==> r.value + 4 <= |s| && s[..2] == "**" && s[r.value + 2..r.value + 4] == "**"
  {
    if StartsWith(s, "**") then
      match CloseAt(s[2..])
      case Some(n) =>
        assert s[n + 2..n + 4] == s[2..][n..n + 2];
        Some(n)
      case None => None
    else None
  }

  /** The span `BoldAt` finds is the shortest: its inner text holds no line terminator and
      no `**`. It finds none only when `s` does not open with `**`, or every later `**` has
      a line terminator before it. */
  lemma BoldAtSpan(s: string)
    ensures BoldAt(s).Some? ==> forall i :: 2 <= i < BoldAt(s).value + 2 ==> !IsLineTerminator(s[i]) && !PairAt(s, i)
    ensures BoldAt(s).None? ==> (!StartsWith(s, "**") ||
      forall j :: 2 <= j && PairAt(s, j) ==> exists i :: 2 <= i < j && IsLineTerminator(s[i]))
  {
    if StartsWith(s, "**") {
      PairShift(s);
      match CloseAt(s[2..])
      case Some(n) =>
      case None =>
        forall j | 2 <= j && PairAt(s, j)
          ensures exists i :: 2 <= i < j && IsLineTerminator(s[i])
        {
          assert PairAt(s[2..], j - 2);
          var i :| 0 <= i < j - 2 && IsLineTerminator(s[2..][i]);
          assert IsLineTerminator(s[i + 2]);
        }
    }
  }

  /** A bold span at the start of `s` is `**`, its inner text, `**`, then the rest. */
  lemma BoldShape(s: string, n: nat)
    requires n + 4 <= |s| && s[..2] == "**" && s[n + 2..n + 4] == "**"
    ensures s == "**" + s[2..2 + n] + "**" + s[n + 4..]
  {
    assert s == s[..2] + s[2..2 + n] + s[n + 2..n + 4] + s[n + 4..];
  }

  /** `(plain + s).split` at the global pattern `\*\*(.*?)\*\*`, when `plain` holds no span
      start: the plain text at even positions, the text inside each bold span at odd ones. */
  function Pieces(s: string, plain: string): (r: seq<string>)
    ensures |r| % 2 == 1
    decreases |s|
  {
    if s == [] then [plain]
    else
      match BoldAt(s)
      case Some(n) => [plain, s[2..2 + n]] + Pieces(s[n + 4..], "")
      case None => Pieces(s[1..], plain + [s[0]])
  }

  /** Puts the pieces back together, wrapping every odd-position piece in `**`. */
  function Rejoin(parts: seq<string>): string
    requires |parts| % 2 == 1
    decreases |parts|
  {
    if |parts| == 1 then parts[0] else parts[0] + "**" + parts[1] + "**" + Rejoin(parts[2..])
  }

  lemma RejoinCons(a: string, b: string, rest: seq<string>)
    requires |rest| % 2 == 1
    ensures Rejoin([a, b] + rest) == a + "**" + b + "**" + Rejoin(rest)
  {
    var r := [a, b] + rest;
    assert r[0] == a && r[1] == b && r[2..] == rest;
  }

  /** A bold span at the start of `s` becomes the plain text before it and its inner text,
      followed by the pieces of what comes after it. */
  lemma PiecesBold(s: string, plain: string, n: nat)
    requires s != [] && BoldAt(s) == Some(n)
    ensures Pieces(s, plain) == [plain, s[2..2 + n]] + Pieces(s[n + 4..], "")
  {
  }

  /** Re-associates a concatenation of five sequences. */
  lemma Regroup5<T>(a: seq<T>, b: seq<T>, c: seq<T>, d: seq<T>, e: seq<T>)
    ensures a + b + c + d + e == a + (b + c + d + e)
  {
  }

  /** One bold span at the start: its pieces rejoin to the line once the rest does. */
  lemma RejoinBold(s: string, plain: string, n: nat)
    requires s != [] && BoldAt(s) == Some(n)
    requires Rejoin(Pieces(s[n + 4..], "")) == s[n + 4..]
    ensures Rejoin(Pieces(s, plain)) == plain + s
  {
    var inner := s[2..2 + n];
    var rest := Pieces(s[n + 4..], "");
    PiecesBold(s, plain, n);
    RejoinCons(plain, inner, rest);
    BoldShape(s, n);
    Regroup5(plain, "**", inner, "**", s[n + 4..]);
  }

  /** Splitting at the bold spans loses nothing: rejoining gives back the line. */
  lemma {:induction false} PiecesRejoin(s: string, plain: string)
    ensures Rejoin(Pieces(s, plain)) == plain + s
    decreases |s|
  {
    if s != [] {
      match BoldAt(s)
      case Some(n) =>
        PiecesRejoin(s[n + 4..], "");
        RejoinBold(s, plain, n);
      case None =>
        PiecesRejoin(s[1..], plain + [s[0]]);
        RejoinPlain(s, plain);
    }
  }

  /** A character that starts no span moves into the plain text. */
  lemma RejoinPlain(s: string, plain: string)
    requires s != [] && BoldAt(s).None?
    requires Rejoin(Pieces(s[1..], plain + [s[0]])) == plain + [s[0]] + s[1..]
    ensures Rejoin(Pieces(s, plain)) == plain + s
  {
    PiecesPlain(s, plain);
    MoveHead(plain, s);
  }

  /** A character that starts no span joins the plain text before the rest is split. */
  lemma PiecesPlain(s: string, plain: string)
    requires s != [] && BoldAt(s).None?
    ensures Pieces(s, plain) == Pieces(s[1..], plain + [s[0]])
  {
  }

  /** Moving the head of `s` onto the end of `a` leaves the concatenation as it was. */
  lemma MoveHead<T>(a: seq<T>, s: seq<T>)
    requires s != []
    ensures a + [s[0]] + s[1..] == a + s
  {
    assert s == [s[0]] + s[1..];
  }

  /** The closing `**` found in `t` is still the one found once more text follows. */
  lemma {:induction false} CloseAtExtend(t: string, y: string)
    requires CloseAt(t).Some?
    ensures CloseAt(t + y) == CloseAt(t)
    decreases |t|
  {
    PairStarts(t);
    PairStarts(t + y);
    if !StartsWith(t, "**") {
      assert (t + y)[1..] == t[1..] + y;
      CloseAtExtend(t[1..], y);
    }
  }

  /** A bold span at the start of `x` is still the span found once more text follows. */
  lemma BoldAtExtend(x: string, y: string)
    ensures BoldAt(x).Some? ==> BoldAt(x + y) == BoldAt(x)
  {
    if BoldAt(x).Some? {
      assert (x + y)[..2] == x[..2];
      assert (x + y)[2..] == x[2..] + y;
      CloseAtExtend(x[2..], y);
    }
  }

  /** The text inside a bold span: no line terminator, and no `**`. */
  predicate InnerText(p: string) {
    forall i :: 0 <= i < |p| ==> !IsLineTerminator(p[i]) && !PairAt(p, i)
  }

  /** Plain text: no position of it starts a complete bold span. */
  predicate NoSpan(p: string) {
    forall i :: 0 <= i <= |p| ==> BoldAt(p[i..]).None?
  }

  /** The inner text of the span `BoldAt` finds is inner text. */
  lemma BoldInner(s: string, n: nat)
    requires s != [] && BoldAt(s) == Some(n)
    ensures InnerText(s[2..2 + n])
  {
    var inner := s[2..2 + n];
    BoldAtSpan(s);
    forall i | 0 <= i < |inner|
      ensures !IsLineTerminator(inner[i]) && !PairAt(inner, i)
    {
      assert inner[i] == s[i + 2];
      assert PairAt(inner, i) ==> PairAt(s, i + 2);
    }
  }

  /** No position of `plain` starts a bold span when the text `s` follows it. */
  predicate PlainBefore(plain: string, s: string) {
    forall i :: 0 <= i < |plain| ==> BoldAt(plain[i..] + s).None?
  }

  /** Plain text collected before a span, or at the end, is free of spans. */
  lemma PlainNoSpan(plain: string, s: string)
    requires PlainBefore(plain, s)
    ensures NoSpan(plain)
  {
    forall i | 0 <= i <= |plain|
      ensures BoldAt(plain[i..]).None?
    {
      if i < |plain| {
        BoldAtExtend(plain[i..], s);
      }
    }
  }

  /** A character that starts no span joins the plain text. */
  lemma PlainGrows(plain: string, s: string)
    requires s != [] && BoldAt(s).None? && PlainBefore(plain, s)
    ensures PlainBefore(plain + [s[0]], s[1..])
  {
    var next := plain + [s[0]];
    forall i | 0 <= i < |next|
      ensures BoldAt(next[i..] + s[1..]).None?
    {
      assert s == [s[0]] + s[1..];
      assert next[i..] == plain[i..] + [s[0]];
      assert next[i..] + s[1..] == plain[i..] + s;
    }
  }

  /** Spans separated out: every piece at an odd position is the inner text of a span, and no
      piece at an even position holds a complete span. */
  predicate Separated(r: seq<string>) {
    && (forall k :: 0 <= k < |r| && k % 2 == 1 ==> InnerText(r[k]))
    && (forall k :: 0 <= k < |r| && k % 2 == 0 ==> NoSpan(r[k]))
  }

  lemma SeparatedCons(plain: string, inner: string, rest: seq<string>)
    requires NoSpan(plain) && InnerText(inner) && Separated(rest)
    ensures Separated([plain, inner] + rest)
  {
    var r := [plain, inner] + rest;
    assert forall k :: 2 <= k < |r| ==> r[k] == rest[k - 2];
  }

  /** The split separates the spans out. */
  lemma {:induction false} PiecesShape(s: string, plain: string)
    requires PlainBefore(plain, s)
    ensures Separated(Pieces(s, plain))
    decreases |s|
  {
    if s == [] {
      assert forall i :: 0 <= i < |plain| ==> plain[i..] + s == plain[i..];
      PlainNoSpan(plain, s);
    } else {
      match BoldAt(s)
      case Some(n) =>
        PiecesShape(s[n + 4..], "");
        PiecesBold(s, plain, n);
        BoldInner(s, n);
        PlainNoSpan(plain, s);
        SeparatedCons(plain, s[2..2 + n], Pieces(s[n + 4..], ""));
      case None =>
        PlainGrows(plain, s);
        PiecesShape(s[1..], plain + [s[0]]);
        assert Pieces(s, plain) == Pieces(s[1..], plain + [s[0]]);
    }
  }

  function Concat(parts: seq<string>): string
    decreases |parts|
  {
    if parts == [] then "" else parts[0] + Concat(parts[1..])
  }

  /** `t.replace` of the global pattern `\*\*(.*?)\*\*` by `$1`: every bold span replaced by
      the text inside it. */
  function Unbold(t: string): string {
    Concat(Pieces(t, ""))
  }

  // ---------------------------------------------------------------- removing every `**`

  /** No two neighbouring characters are both `*`. */
  predicate NoDoubleStar(s: string) {
    forall i :: 0 <= i < |s| - 1 ==> !(s[i] == '*' && s[i + 1] == '*')
  }

  /** `s.replace` of the global pattern `\*\*` by the empty string: every `**` taken out,
      scanning left to right. */
  function DropStars(s: string): (r: string)
    ensures |r| <= |s|
    ensures s != [] && s[0] != '*' ==> r != [] && r[0] == s[0]
    decreases |s|
  {
    if s == [] then []
    else if StartsWith(s, "**") then DropStars(s[2..])
    else [s[0]] + DropStars(s[1..])
  }

  /** After the removal no `**` is left, even where single stars were next to pairs. */
  lemma {:induction false} DropStarsLeavesNoPair(s: string)
    ensures NoDoubleStar(DropStars(s))
    decreases |s|
  {
    if s != [] {
      if StartsWith(s, "**") {
        DropStarsLeavesNoPair(s[2..]);
      } else {
        DropStarsLeavesNoPair(s[1..]);
        var r := DropStars(s);
        assert r == [s[0]] + DropStars(s[1..]);
        if s[0] == '*' && |s| > 1 {
          assert s[1] != '*' by { assert s[..2] != "**"; }
        }
      }
    }
  }

  /** The characters other than `*`, in order. */
  function Unstarred(s: string): string
    decreases |s|
  {
    if s == [] then [] else (if s[0] == '*' then [] else [s[0]]) + Unstarred(s[1..])
  }

  /** Only star characters are removed. */
  lemma {:induction false} DropStarsKeepsText(s: string)
    ensures Unstarred(DropStars(s)) == Unstarred(s)
    decreases |s|
  {
    if s != [] {
      if StartsWith(s, "**") {
        DropStarsKeepsText(s[2..]);
        assert s[1..][1..] == s[2..];
      } else {
        DropStarsKeepsText(s[1..]);
        assert ([s[0]] + DropStars(s[1..]))[1..] == DropStars(s[1..]);
      }
    }
  }

  /** Text without any `**` passes through unchanged, single stars included. */
  lemma {:induction false} DropStarsNoPair(s: string)
    requires NoDoubleStar(s)
    ensures DropStars(s) == s
    decreases |s|
  {
    if s != [] {
      assert !StartsWith(s, "**") by {
        if |s| >= 2 { assert s[..2][0] == s[0] && s[..2][1] == s[1]; }
      }
      assert NoDoubleStar(s[1..]) by {
        forall i | 0 <= i < |s[1..]| - 1
          ensures !(s[1..][i] == '*' && s[1..][i + 1] == '*')
        {
          assert s[1..][i] == s[i + 1] && s[1..][i + 1] == s[i + 2];
        }
      }
      DropStarsNoPair(s[1..]);
    }
  }

  /** `k` stars. */
  function Stars(k: nat): (r: string)
    ensures |r| == k
  {
    if k == 0 then [] else "*" + Stars(k - 1)
  }

  /** A leading pair of stars is dropped. */
  lemma DropPair(k: nat, s: string)
    requires k >= 2
    ensures DropStars(Stars(k) + s) == DropStars(Stars(k - 2) + s)
  {
    var t := Stars(k) + s;
    assert Stars(k) == "*" + ("*" + Stars(k - 2));
    assert t == "**" + (Stars(k - 2) + s);
    assert t[..2] == "**" && t[2..] == Stars(k - 2) + s;
  }

  /** A lone star in front of a non-star is kept. */
  lemma KeepStar(s: string)
    requires s == [] || s[0] != '*'
    ensures DropStars(Stars(1) + s) == Stars(1) + DropStars(s)
  {
    var t := Stars(1) + s;
    assert t == "*" + s;
    assert t[1..] == s;
    assert |t| >= 2 ==> t[..2] != "**" by {
      if |t| >= 2 { assert t[..2][1] == s[0]; }
    }
  }

  /** Scanning left to right, a maximal run of `k` stars loses its pairs and keeps one star
      exactly when `k` is odd: `***` becomes `*`. */
  lemma {:induction false} StarRun(k: nat, s: string)
    requires s == [] || s[0] != '*'
    ensures DropStars(Stars(k) + s) == Stars(k % 2) + DropStars(s)
    decreases k
  {
    if k >= 2 {
      DropPair(k, s);
      StarRun(k - 2, s);
      assert (k - 2) % 2 == k % 2;
    } else if k == 1 {
      KeepStar(s);
    } else {
      assert Stars(0) == [] && Stars(0) + s == s;
    }
  }

  // ---------------------------------------------------------------- classifying one line

  datatype Line =
    | Heading2(text: string)
    | Heading3(text: string)
    | BoldLine(text: string)
    | Item(text: string)
    | ItalicLine(text: string)
    | Blank
    | Paragraph(parts: seq<string>)

  /** What one line of content becomes: its kind, read off the trimmed line. */
  function Classify(line: string): (k: Line)
    ensures KeepsText(Trim(line), k)
  {
    ClassifyText(Trim(line));
    Kind(Trim(line))
  }

  /** The kind of a trimmed line, decided in the renderer's order: `## `, `### `, `**...**`,
      `- `, `*...*`, empty, anything else. */
  function Kind(t: string): Line {
    if StartsWith(t, "## ") then Heading2(t[3..])
    else if StartsWith(t, "### ") then Heading3(t[4..])
    else if StartsWith(t, "**") && EndsWith(t, "**") then BoldLine(DropStars(t))
    else if StartsWith(t, "- ") then Item(Unbold(t[2..]))
    else if StartsWith(t, "*") && EndsWith(t, "*") then ItalicLine(if |t| == 1 then "" else t[1..|t| - 1])
    else if t == "" then Blank
    else Paragraph(Pieces(t, ""))
  }

  /** The text each kind of line keeps from the trimmed line `t`: a heading is `t` after
      its marker, a bold line has no `**` left and keeps every other character of `t`, a
      list item is what follows `- ` with its bold spans unwrapped, an italic line loses one
      star on each side, only an empty line is blank, and a paragraph's pieces rejoin to
      `t` with its bold spans separated out. */
  predicate KeepsText(t: string, k: Line) {
    match k
    case Heading2(x) => "## " + x == t
    case Heading3(x) => "### " + x == t && !StartsWith(t, "## ")
    case BoldLine(x) => StartsWith(t, "**") && EndsWith(t, "**") && NoDoubleStar(x) && Unstarred(x) == Unstarred(t)
    case Item(x) => StartsWith(t, "- ") && x == Unbold(t[2..])
    case ItalicLine(x) => t == "*" + x + "*" || (t == "*" && x == "")
    case Blank => t == ""
    case Paragraph(parts) => t != "" && |parts| % 2 == 1 && Rejoin(parts) == t && Separated(parts)
  }

  lemma HeadingKeepsText(t: string)
    requires StartsWith(t, "## ") || StartsWith(t, "### ")
    ensures KeepsText(t, Kind(t))
  {
    if StartsWith(t, "## ") {
      assert Kind(t) == Heading2(t[3..]);
      assert t == "## " + t[3..];
    } else {
      assert Kind(t) == Heading3(t[4..]);
      assert t == "### " + t[4..];
    }
  }

  lemma ItalicKeepsText(t: string)
    requires !StartsWith(t, "## ") && !StartsWith(t, "### ")
    requires !(StartsWith(t, "**") && EndsWith(t, "**")) && !StartsWith(t, "- ")
    requires StartsWith(t, "*") && EndsWith(t, "*")
    ensures KeepsText(t, Kind(t))
  {
    if |t| > 1 {
      assert Kind(t) == ItalicLine(t[1..|t| - 1]);
      assert t == "*" + t[1..|t| - 1] + "*";
    }
  }

  /** Every trimmed line keeps its text as its kind says. */
  lemma ClassifyText(t: string)
    ensures KeepsText(t, Kind(t))
  {
    if StartsWith(t, "## ") || StartsWith(t, "### ") {
      HeadingKeepsText(t);
    } else if StartsWith(t, "**") && EndsWith(t, "**") {
      assert Kind(t) == BoldLine(DropStars(t));
      DropStarsLeavesNoPair(t);
      DropStarsKeepsText(t);
    } else if StartsWith(t, "- ") {
      assert Kind(t) == Item(Unbold(t[2..]));
    } else if StartsWith(t, "*") && EndsWith(t, "*") {
      ItalicKeepsText(t);
    } else if t != "" {
      assert Kind(t) == Paragraph(Pieces(t, ""));
      PiecesRejoin(t, "");
      PiecesShape(t, "");
    }
  }

  /** A line that starts with a marker starts with the marker's first character. */
  lemma FirstMark(t: string, mark: string)
    requires mark != [] && StartsWith(t, mark)
    ensures t[0] == mark[0]
  {
    assert t[..|mark|][0] == t[0];
  }

  /** Which kind a trimmed line gets: the markers exclude one another, so a heading, a bold
      line and a list item are recognised by their marker alone, an italic line is starred
      on both ends but not a bold line, only the empty line is blank, and every other
      non-empty line is a paragraph. */
  lemma KindOrder(t: string)
    ensures Kind(t).Heading2? <==> StartsWith(t, "## ")
    ensures Kind(t).Heading3? <==> StartsWith(t, "### ")
    ensures Kind(t).BoldLine? <==> StartsWith(t, "**") && EndsWith(t, "**")
    ensures Kind(t).Item? <==> StartsWith(t, "- ")
    ensures Kind(t).ItalicLine? <==> StartsWith(t, "*") && EndsWith(t, "*") && !(StartsWith(t, "**") && EndsWith(t, "**"))
    ensures Kind(t).Blank? <==> t == ""
    ensures Kind(t).Paragraph? <==> t != "" && !StartsWith(t, "## ") && !StartsWith(t, "### ") && !StartsWith(t, "- ") && !(StartsWith(t, "*") && EndsWith(t, "*"))
  {
    if StartsWith(t, "## ") {
      FirstMark(t, "## ");
      assert t[..3][2] == t[2];
    }
    if StartsWith(t, "### ") {
      FirstMark(t, "### ");
      assert t[..4][2] == t[2];
    }
    if StartsWith(t, "- ") {
      FirstMark(t, "- ");
    }
    if StartsWith(t, "**") {
      FirstMark(t, "**");
    }
    if StartsWith(t, "*") {
      FirstMark(t, "*");
    }
  }

  // ---------------------------------------------------------------- blocks

  datatype Block =
    | H2(text: string)
    | H3(text: string)
    | Strong(text: string)
    | Bullets(items: seq<string>)
    | Emphasis(text: string)
    | Para(parts: seq<string>)

  /** The block a line that is neither a list item nor blank emits. */
  function BlockOf(k: Line): Block
    requires !k.Item? && !k.Blank?
  {
    match k
    case Heading2(t) => H2(t)
    case Heading3(t) => H3(t)
    case BoldLine(t) => Strong(t)
    case ItalicLine(t) => Emphasis(t)
    case Paragraph(parts) => Para(parts)
  }

  /** `content.trim().split('\n')`. */
  function Lines(content: string): seq<string> {
    Split(Trim(content), '\n')
  }

  /** Every line classified, in order. */
  function Classified(lines: seq<string>): (ks: seq<Line>)
    ensures |ks| == |lines|
    ensures forall i :: 0 <= i < |lines| ==> ks[i] == Classify(lines[i])
  {
    seq(|lines|, i requires 0 <= i < |lines| => Classify(lines[i]))
  }

  /** The number of list-item lines at the start of `ks`. */
  function ItemRun(ks: seq<Line>): (n: nat)
    ensures n <= |ks|
    ensures forall i :: 0 <= i < n ==> ks[i].Item?
    ensures n < |ks| ==> !ks[n].Item?
    decreases |ks|
  {
    if ks == [] || !ks[0].Item? then 0 else 1 + ItemRun(ks[1..])
  }

  /** The texts of the list-item lines among `ks`, in order. */
  function ItemTexts(ks: seq<Line>): seq<string>
    decreases |ks|
  {
    if ks == [] then []
    else (if ks[0].Item? then [ks[0].text] else []) + ItemTexts(ks[1..])
  }

  /** The blocks of the lines that are neither list items nor blank, in order. */
  function OtherBlocks(ks: seq<Line>): seq<Block>
    decreases |ks|
  {
    if ks == [] then []
    else (if ks[0].Item? || ks[0].Blank? then [] else [BlockOf(ks[0])]) + OtherBlocks(ks[1..])
  }

  /** What the renderer produces, stated by runs: each maximal run of consecutive list-item
      lines becomes one list, a blank line emits nothing, and every other line one block. */
  function Blocks(ks: seq<Line>): seq<Block>
    decreases |ks|
  {
    if ks == [] then []
    else if ks[0].Item? then
      var n := ItemRun(ks);
      [Bullets(ItemTexts(ks[..n]))] + Blocks(ks[n..])
    else if ks[0].Blank? then Blocks(ks[1..])
    else [BlockOf(ks[0])] + Blocks(ks[1..])
  }

  /** `flushList`: the pending items as one list, or nothing when there are none. */
  function Flush(items: seq<string>): seq<Block> {
    if items == [] then [] else [Bullets(items)]
  }

  /** The blocks still to come when `items` are pending and `rest` is unread: the item lines
      that start `rest` join the pending list, which is emitted before the next other line. */
  function Continue(items: seq<string>, rest: seq<Line>): seq<Block>
    decreases |rest|
  {
    if items == [] then Blocks(rest)
    else if rest != [] && rest[0].Item? then Continue(items + [rest[0].text], rest[1..])
    else Flush(items) + Blocks(rest)
  }

  /** A run of item lines is its first line followed by the run of the lines after it. */
  lemma RunCons(rest: seq<Line>)
    requires rest != [] && rest[0].Item?
    ensures ItemRun(rest) == 1 + ItemRun(rest[1..])
    ensures ItemTexts(rest[..ItemRun(rest)]) == [rest[0].text] + ItemTexts(rest[1..][..ItemRun(rest[1..])])
    ensures rest[ItemRun(rest)..] == rest[1..][ItemRun(rest[1..])..]
  {
    var n := ItemRun(rest);
    var m := ItemRun(rest[1..]);
    var run := rest[..n];
    assert run[0] == rest[0] && run[1..] == rest[1..][..m];
  }

  /** A pending list takes in the whole run of item lines that follows it. */
  lemma {:induction false} ContinueRun(items: seq<string>, rest: seq<Line>)
    requires items != []
    ensures Continue(items, rest) == [Bullets(items + ItemTexts(rest[..ItemRun(rest)]))] + Blocks(rest[ItemRun(rest)..])
    decreases |rest|
  {
    if rest != [] && rest[0].Item? {
      var t := rest[0].text;
      var m := ItemRun(rest[1..]);
      ContinueRun(items + [t], rest[1..]);
      RunCons(rest);
      Regroup(items, [t], ItemTexts(rest[1..][..m]), [t] + ItemTexts(rest[1..][..m]));
    } else {
      assert ItemRun(rest) == 0 && rest[..0] == [] && rest[0..] == rest;
      assert items + ItemTexts([]) == items;
    }
  }

  lemma {:induction false} ContinueItem(items: seq<string>, rest: seq<Line>)
    requires rest != [] && rest[0].Item?
    ensures Continue(items, rest) == Continue(items + [rest[0].text], rest[1..])
  {
    if items == [] {
      var t := rest[0].text;
      RunCons(rest);
      ContinueRun([t], rest[1..]);
      assert items + [t] == [t];
    }
  }

  /** The blocks a line that is not a list item emits once the pending list is flushed. */
  function Emitted(k: Line): seq<Block>
    requires !k.Item?
  {
    if k.Blank? then [] else [BlockOf(k)]
  }

  /** A line that is not a list item emits its own blocks ahead of the rest. */
  lemma BlocksOther(rest: seq<Line>)
    requires rest != [] && !rest[0].Item?
    ensures Blocks(rest) == Emitted(rest[0]) + Blocks(rest[1..])
  {
    if rest[0].Blank? {
      assert Blocks(rest) == Blocks(rest[1..]);
    } else {
      assert Blocks(rest) == [BlockOf(rest[0])] + Blocks(rest[1..]);
    }
  }

  lemma {:induction false} ContinueFlushes(items: seq<string>, rest: seq<Line>)
    requires rest != [] && !rest[0].Item?
    ensures Continue(items, rest) == Flush(items) + Emitted(rest[0]) + Blocks(rest[1..])
  {
    assert Continue(items, rest) == Flush(items) + Blocks(rest);
    BlocksOther(rest);
    Regroup(Flush(items), Emitted(rest[0]), Blocks(rest[1..]), Blocks(rest));
  }

  /** Regrouping the output: what was emitted so far, then what the step emits, then the rest. */
  lemma Regroup<T>(done: seq<T>, emitted: seq<T>, tail: seq<T>, whole: seq<T>)
    requires whole == emitted + tail
    ensures done + whole == (done + emitted) + tail
  {
  }

  lemma {:induction false} ContinueEnd(items: seq<string>)
    ensures Continue(items, []) == Flush(items)
  {
    assert Blocks([]) == [];
  }

  /** A list-item line joins the pending items. */
  lemma StepItem(elements: seq<Block>, items: seq<string>, ks: seq<Line>, i: nat)
    requires i < |ks| && ks[i].Item?
    requires elements + Continue(items, ks[i..]) == Blocks(ks)
    ensures elements + Continue(items + [ks[i].text], ks[i + 1..]) == Blocks(ks)
  {
    assert ks[i..][0] == ks[i] && ks[i..][1..] == ks[i + 1..];
    ContinueItem(items, ks[i..]);
  }

  /** Any other line flushes the pending items and emits its own block, if any. */
  lemma StepOther(elements: seq<Block>, items: seq<string>, ks: seq<Line>, i: nat)
    requires i < |ks| && !ks[i].Item?
    requires elements + Continue(items, ks[i..]) == Blocks(ks)
    ensures (elements + Flush(items) + Emitted(ks[i])) + Continue([], ks[i + 1..]) == Blocks(ks)
  {
    assert ks[i..][0] == ks[i] && ks[i..][1..] == ks[i + 1..];
    ContinueFlushes(items, ks[i..]);
    Regroup(elements, Flush(items) + Emitted(ks[i]), Blocks(ks[i + 1..]), Continue(items, ks[i..]));
    Regroup(elements, Flush(items), Emitted(ks[i]), Flush(items) + Emitted(ks[i]));
  }

  /** The loop of `renderContent` over the classified lines: a buffer of pending list items
      is flushed as one list before any other block, on a blank line and at the end. */
  method RenderLines(ks: seq<Line>) returns (elements: seq<Block>)
    ensures elements == Blocks(ks)
  {
    elements := [];
    var listItems: seq<string> := [];
    var i := 0;
    assert ks[0..] == ks;
    while i < |ks|
      invariant 0 <= i <= |ks|
      invariant elements + Continue(listItems, ks[i..]) == Blocks(ks)
    {
      var k := ks[i];
      if k.Item? {
        StepItem(elements, listItems, ks, i);
        listItems := listItems + [k.text];
      } else {
        StepOther(elements, listItems, ks, i);
        elements := elements + Flush(listItems);
        listItems := [];
        if !k.Blank? {
          elements := elements + [BlockOf(k)];
        }
      }
      i := i + 1;
    }
    ContinueEnd(listItems);
    assert ks[i..] == [];
    elements := elements + Flush(listItems);
  }

  /** `renderContent`: the trimmed content split into lines, each line classified, and the
      lines grouped into blocks. */
  method RenderContent(content: string) returns (elements: seq<Block>)
    ensures elements == Blocks(Classified(Lines(content)))
  {
    elements := RenderLines(Classified(Lines(content)));
  }

  // ---------------------------------------------------------------- what the blocks keep

  /** The items of all lists, in order. */
  function ListedItems(blocks: seq<Block>): seq<string>
    decreases |blocks|
  {
    if blocks == [] then []
    else (if blocks[0].Bullets? then blocks[0].items else []) + ListedItems(blocks[1..])
  }

  /** The blocks that are not lists, in order. */
  function NonLists(blocks: seq<Block>): seq<Block>
    decreases |blocks|
  {
    if blocks == [] then [] else (if blocks[0].Bullets? then [] else [blocks[0]]) + NonLists(blocks[1..])
  }

  lemma {:induction false} ItemTextsAppend(a: seq<Line>, b: seq<Line>)
    ensures ItemTexts(a + b) == ItemTexts(a) + ItemTexts(b)
    decreases |a|
  {
    if a != [] {
      assert (a + b)[0] == a[0] && (a + b)[1..] == a[1..] + b;
      ItemTextsAppend(a[1..], b);
    } else {
      assert a + b == b;
    }
  }

  lemma {:induction false} OtherBlocksAppend(a: seq<Line>, b: seq<Line>)
    ensures OtherBlocks(a + b) == OtherBlocks(a) + OtherBlocks(b)
    decreases |a|
  {
    if a != [] {
      assert (a + b)[0] == a[0] && (a + b)[1..] == a[1..] + b;
      OtherBlocksAppend(a[1..], b);
    } else {
      assert a + b == b;
    }
  }

  lemma {:induction false} ItemTextsOfRun(ks: seq<Line>)
    requires forall i :: 0 <= i < |ks| ==> ks[i].Item?
    ensures |ItemTexts(ks)| == |ks|
    ensures OtherBlocks(ks) == []
    decreases |ks|
  {
    if ks != [] {
      ItemTextsOfRun(ks[1..]);
    }
  }

  lemma {:induction false} ListedItemsAppend(a: seq<Block>, b: seq<Block>)
    ensures ListedItems(a + b) == ListedItems(a) + ListedItems(b)
    ensures NonLists(a + b) == NonLists(a) + NonLists(b)
    decreases |a|
  {
    if a != [] {
      assert (a + b)[0] == a[0] && (a + b)[1..] == a[1..] + b;
      ListedItemsAppend(a[1..], b);
    } else {
      assert a + b == b;
    }
  }

  /** What `BlocksKeepEveryLine` states of the lines `ks`. */
  predicate KeepsEveryLine(ks: seq<Line>) {
    && ListedItems(Blocks(ks)) == ItemTexts(ks)
    && NonLists(Blocks(ks)) == OtherBlocks(ks)
    && forall b :: b in Blocks(ks) && b.Bullets? ==> b.items != []
  }

  /** A run of list lines becomes one list, followed by the blocks of the rest. */
  lemma BlocksRun(ks: seq<Line>)
    requires ks != [] && ks[0].Item?
    ensures 1 <= ItemRun(ks)
    ensures Blocks(ks) == [Bullets(ItemTexts(ks[..ItemRun(ks)]))] + Blocks(ks[ItemRun(ks)..])
  {
  }

  /** Splitting the lines after a run of list lines: the run holds only list items. */
  lemma RunSplit(ks: seq<Line>, n: nat)
    requires n <= |ks| && forall i :: 0 <= i < n ==> ks[i].Item?
    ensures ItemTexts(ks) == ItemTexts(ks[..n]) + ItemTexts(ks[n..])
    ensures OtherBlocks(ks) == OtherBlocks(ks[n..])
    ensures |ItemTexts(ks[..n])| == n
  {
    ItemTextsOfRun(ks[..n]);
    assert ks == ks[..n] + ks[n..];
    ItemTextsAppend(ks[..n], ks[n..]);
    OtherBlocksAppend(ks[..n], ks[n..]);
  }

  /** A list block, followed by the blocks `rest`. */
  lemma ListThen(items: seq<string>, rest: seq<Block>)
    ensures ListedItems([Bullets(items)] + rest) == items + ListedItems(rest)
    ensures NonLists([Bullets(items)] + rest) == NonLists(rest)
  {
    ListedItemsAppend([Bullets(items)], rest);
  }

  /** A run of list lines, as one list, followed by the rest. */
  lemma KeepRun(ks: seq<Line>)
    requires ks != [] && ks[0].Item?
    requires KeepsEveryLine(ks[ItemRun(ks)..])
    ensures KeepsEveryLine(ks)
  {
    var n := ItemRun(ks);
    var items := ItemTexts(ks[..n]);
    var rest := Blocks(ks[n..]);
    BlocksRun(ks);
    RunSplit(ks, n);
    ListThen(items, rest);
    assert forall b :: b in Blocks(ks) ==> b == Bullets(items) || b in rest;
  }

  /** Any other line, as its own block or nothing, followed by the rest. */
  lemma KeepOther(ks: seq<Line>)
    requires ks != [] && !ks[0].Item?
    requires KeepsEveryLine(ks[1..])
    ensures KeepsEveryLine(ks)
  {
    BlocksOther(ks);
    ListedItemsAppend(Emitted(ks[0]), Blocks(ks[1..]));
  }

  /** Every list-item line becomes exactly one list item, in order; every other line that
      is not blank becomes exactly one block, in order; and no list is empty. */
  lemma {:induction false} BlocksKeepEveryLine(ks: seq<Line>)
    ensures ListedItems(Blocks(ks)) == ItemTexts(ks)
    ensures NonLists(Blocks(ks)) == OtherBlocks(ks)
    ensures forall b :: b in Blocks(ks) && b.Bullets? ==> b.items != []
    decreases |ks|
  {
    if ks != [] {
      if ks[0].Item? {
        BlocksKeepEveryLine(ks[ItemRun(ks)..]);
        KeepRun(ks);
      } else {
        BlocksKeepEveryLine(ks[1..]);
        KeepOther(ks);
      }
    }
  }

  // ---------------------------------------------------------------- the page

  /** `blogPosts.find((p) => p.slug === slug)`: the first post with that slug. */
  function FindPost(posts: seq<Post>, slug: string): (r: Option<Post>)
    ensures r.None? <==> forall p :: p in posts ==> p.slug != slug
    ensures r.Some? ==> r.value.slug == slug
    ensures r.Some? ==> exists i :: 0 <= i < |posts| && posts[i] == r.value && forall j :: 0 <= j < i ==> posts[j].slug != slug
    decreases |posts|
  {
    if posts == [] then None
    else if posts[0].slug == slug then Some(posts[0])
    else
      var r := FindPost(posts[1..], slug);
      if r.Some? then
        var i :| 0 <= i < |posts[1..]| && posts[1..][i] == r.value && forall j :: 0 <= j < i ==> posts[1..][j].slug != slug;
        assert posts[i + 1] == r.value;
        r
      else r
  }

  predicate SharesTag(p: Post, post: Post) {
    exists tag :: tag in p.tags && tag in post.tags
  }

  /** A post that may be listed as related to `post`. */
  predicate IsRelated(p: Post, post: Post) {
    p.slug != post.slug && SharesTag(p, post)
  }

  /** `relatedPosts`: the posts with another slug, then those sharing a tag, then the first
      two: exactly the first two related posts, in the order of `posts`. */
  function RelatedPosts(posts: seq<Post>, post: Post): (r: seq<Post>)
    ensures var related := Filter(posts, (p: Post) => IsRelated(p, post));
      r == related[..if |related| < 2 then |related| else 2]
    ensures |r| <= 2
    ensures forall p :: p in r ==> p in posts && IsRelated(p, post)
    ensures IsSubsequence(r, posts)
    ensures |r| < 2 ==> forall p :: p in posts && IsRelated(p, post) ==> p in r
  {
    var others := Filter(posts, (p: Post) => p.slug != post.slug);
    var sharing := Filter(others, (p: Post) => SharesTag(p, post));
    FilterFusion(posts, (p: Post) => p.slug != post.slug, (p: Post) => SharesTag(p, post), (p: Post) => IsRelated(p, post));
    var n := if |sharing| < 2 then |sharing| else 2;
    PrefixIsSubsequence(sharing, n);
    SubsequenceTransitive(sharing[..n], sharing, others);
    SubsequenceTransitive(sharing[..n], others, posts);
    assert forall p :: p in sharing <==> p in posts && IsRelated(p, post);
    assert forall p :: p in sharing[..n] ==> p in sharing;
    assert n < 2 ==> sharing[..n] == sharing;
    sharing[..n]
  }

  datatype Page =
    | Redirect(to: string)
    | Article(post: Post, related: seq<Post>, body: seq<Block>)

  /** The page for `slug`: an unknown slug redirects to the insights list and renders no post. */
  function BlogPage(posts: seq<Post>, slug: string): (page: Page)
    ensures page.Redirect? <==> forall p :: p in posts ==> p.slug != slug
    ensures page.Redirect? ==> page.to == "/insights"
    ensures page.Article? ==> page.post in posts && page.post.slug == slug
  {
    match FindPost(posts, slug)
    case None => Redirect("/insights")
    case Some(post) =>
      Article(post, RelatedPosts(posts, post), Blocks(Classified(Lines(post.content))))
  }
}

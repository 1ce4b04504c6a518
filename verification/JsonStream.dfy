/** Cutting JSON objects out of a character stream by matching braces. */
module JsonStream {

  /** Position of the first opening brace, or the length. */
  function Opening(s: string): (i: nat)
    ensures i <= |s| && (i < |s| ==> s[i] == '{')
    ensures forall j :: 0 <= j < i ==> s[j] != '{'
  {
    if s == "" || s[0] == '{' then 0 else 1 + Opening(s[1..])
  }

  /** A quote toggles the string state unless the character before it is a backslash. */
  predicate Toggles(s: string, i: nat)
    requires i < |s|
  {
    s[i] == '"' && (i == 0 || s[i - 1] != '\\')
  }

  function DepthAfter(c: char, depth: int): int {
    if c == '{' then depth + 1 else if c == '}' then depth - 1 else depth
  }

  /** From position `i` on: where the depth outside strings is back at zero, or the length. */
  function Closing(s: string, i: nat, depth: int, inString: bool): (e: nat)
    requires i <= |s|
    ensures i <= e <= |s|
    decreases |s| - i
  {
    if i == |s| then i
    else
      var quoted := if Toggles(s, i) then !inString else inString;
      if quoted then Closing(s, i + 1, depth, quoted)
      else
        var d := DepthAfter(s[i], depth);
        if d == 0 then i else Closing(s, i + 1, d, false)
  }

  // ----- Where braces balance, by counting -----

  /** How many of the first `i` characters are quotes with no backslash before them. */
  function Quotes(s: string, i: nat): nat
    requires i <= |s|
  {
    if i == 0 then 0
    else Quotes(s, i - 1) + if s[i - 1] == '"' && (i == 1 || s[i - 2] != '\\') then 1 else 0
  }

  /** Position `i` is outside every string, its own character counted. */
  predicate Outside(s: string, i: nat)
    requires i < |s|
  {
    Quotes(s, i + 1) % 2 == 0
  }

  /** How many of the first `i` characters are the brace `b`, outside strings. */
  function Braces(s: string, i: nat, b: char): nat
    requires i <= |s|
  {
    if i == 0 then 0
    else Braces(s, i - 1, b) + if s[i - 1] == b && Outside(s, i - 1) then 1 else 0
  }

  /** Outside strings, and through position `i` as many braces were closed as opened. */
  predicate BalancedAt(s: string, i: nat)
    requires i < |s|
  {
    Outside(s, i) && Braces(s, i + 1, '{') == Braces(s, i + 1, '}')
  }

  /** `e` is the first balanced position, and the length exactly when there is none. */
  ghost predicate FirstBalanced(s: string, e: nat) {
    && e <= |s| && (forall j :: 0 <= j < e ==> !BalancedAt(s, j))
    && (e < |s| ==> BalancedAt(s, e))
  }

  lemma {:induction false} ClosingFrom(s: string, i: nat, depth: int, inString: bool)
    requires i <= |s| && depth == Braces(s, i, '{') - Braces(s, i, '}')
    requires inString <==> Quotes(s, i) % 2 == 1
    requires forall j :: 0 <= j < i ==> !BalancedAt(s, j)
    ensures FirstBalanced(s, Closing(s, i, depth, inString))
    decreases |s| - i
  {
    if i < |s| {
      var quoted := if Toggles(s, i) then !inString else inString;
      assert quoted <==> !Outside(s, i);
      var d := if quoted then depth else DepthAfter(s[i], depth);
      assert d == Braces(s, i + 1, '{') - Braces(s, i + 1, '}');
      if quoted || d != 0 { ClosingFrom(s, i + 1, d, quoted); }
    }
  }

  /** The scan finds the first position outside strings where the braces balance. */
  lemma ClosingIsFirst(s: string)
    ensures FirstBalanced(s, Closing(s, 0, 0, false))
  {
    ClosingFrom(s, 0, 0, false);
  }

  /** Counting looks at nothing that follows. */
  lemma {:induction false} CountsOfPrefix(t: string, s: string, i: nat)
    requires t <= s && i <= |t|
    ensures Quotes(t, i) == Quotes(s, i)
    ensures Braces(t, i, '{') == Braces(s, i, '{') && Braces(t, i, '}') == Braces(s, i, '}')
  {
    if i > 0 {
      CountsOfPrefix(t, s, i - 1);
      assert t[i - 1] == s[i - 1] && (i > 1 ==> t[i - 2] == s[i - 2]);
    }
  }

  /** What ends at the first balanced position is a complete object. */
  lemma FirstCompletes(s: string, e: nat)
    requires e < |s| && s[0] == '{' && FirstBalanced(s, e)
    ensures Complete(s[..e + 1])
  {
    var t := s[..e + 1];
    forall j | 0 <= j <= e ensures BalancedAt(t, j) <==> BalancedAt(s, j) {
      CountsOfPrefix(t, s, j + 1);
    }
  }

  datatype Found = Nothing | Partial(text: string) | Object(text: string, tail: string)

  /** One round of the loop: no brace at all, an object still open, or a complete object. */
  function Find(buf: string): (f: Found)
    ensures f.Object? ==> |f.tail| < |buf|
  {
    var start := Opening(buf);
    if start == |buf| then Nothing
    else
      var s := buf[start..];
      var end := Closing(s, 0, 0, false);
      if end == |s| then Partial(s) else Object(s[..end + 1], s[end + 1..])
  }

  /** What the loop takes out of a buffer: the texts of complete objects, and what stays. */
  datatype Cut = Cut(texts: seq<string>, rest: string)

  function Extract(buf: string): Cut
    decreases |buf|
  {
    match Find(buf)
    case Nothing => Cut([], "")
    case Partial(s) => Cut([], s)
    case Object(text, tail) =>
      var c := Extract(tail);
      Cut([text] + c.texts, c.rest)
  }

  function Feed(state: Cut, piece: string): Cut {
    var c := Extract(state.rest + piece);
    Cut(state.texts + c.texts, c.rest)
  }

  function FeedAll(pieces: seq<string>): Cut {
    if pieces == [] then Cut([], "") else Feed(FeedAll(pieces[..|pieces| - 1]), pieces[|pieces| - 1])
  }

  function Joined(pieces: seq<string>): string {
    if pieces == [] then "" else Joined(pieces[..|pieces| - 1]) + pieces[|pieces| - 1]
  }

  // ----- Segmentation -----

  ghost predicate Braceless(s: string) {
    forall j :: 0 <= j < |s| ==> s[j] != '{'
  }

  lemma OpeningIs(s: string, i: nat)
    requires i <= |s| && (i < |s| ==> s[i] == '{') && forall j :: 0 <= j < i ==> s[j] != '{'
    ensures Opening(s) == i
  {
  }

  lemma {:induction false} ClosingMore(a: string, b: string, i: nat, depth: int, inString: bool)
    requires i <= |a|
    ensures Closing(a, i, depth, inString) < |a| ==>
      Closing(a + b, i, depth, inString) == Closing(a, i, depth, inString)
    decreases |a| - i
  {
    if i < |a| {
      var quoted := if Toggles(a, i) then !inString else inString;
      assert Toggles(a + b, i) == Toggles(a, i);
      ClosingMore(a, b, i + 1, if quoted then depth else DepthAfter(a[i], depth), quoted);
    }
  }

  /** Nothing before the first brace matters. */
  lemma FindSkips(gap: string, s: string)
    requires Braceless(gap)
    ensures Find(gap + s) == Find(s)
  {
    hide Closing, Opening;
    var i := Opening(s);
    OpeningIs(gap + s, |gap| + i);
    assert (gap + s)[|gap| + i..] == s[i..];
  }

  /** An object complete in the front comes out the same, whatever follows it. */
  lemma FindObject(s: string, b: string)
    requires s != "" && s[0] == '{'
    ensures Find(s).Object? ==> Find(s + b) == Object(Find(s).text, Find(s).tail + b)
    ensures Find(s).Object? || Find(s) == Partial(s)
  {
    hide Closing, Opening;
    var e := Closing(s, 0, 0, false);
    OpeningIs(s, 0);
    OpeningIs(s + b, 0);
    ClosingMore(s, b, 0, 0, false);
    assert s[0..] == s && (s + b)[0..] == s + b;
    if e < |s| {
      assert (s + b)[..e + 1] == s[..e + 1] && (s + b)[e + 1..] == s[e + 1..] + b;
    }
  }

  lemma FindMore(a: string, b: string)
    ensures match Find(a)
      case Nothing => Find(a + b) == Find(b)
      case Partial(s) => Find(a + b) == Find(s + b)
      case Object(text, tail) => Find(a + b) == Object(text, tail + b)
  {
    hide Find, Opening;
    var gap, s := a[..Opening(a)], a[Opening(a)..];
    assert a == gap + s && a + b == gap + (s + b);
    FindSkips(gap, s);
    FindSkips(gap, s + b);
    if s == "" {
      FindNone();
      assert s + b == b;
    } else {
      FindObject(s, b);
    }
  }

  lemma FindNone()
    ensures Find("") == Nothing
  {
  }

  lemma SameFound(a: string, b: string)
    requires Find(a) == Find(b)
    ensures Extract(a) == Extract(b)
  {
    hide Find;
  }

  /** Extracting from a stream is extracting from a beginning of it and going on with the rest. */
  lemma {:induction false} ExtractMore(a: string, b: string)
    ensures var x, y := Extract(a), Extract(Extract(a).rest + b);
      Extract(a + b) == Cut(x.texts + y.texts, y.rest)
    decreases |a|
  {
    hide Find;
    FindMore(a, b);
    match Find(a)
    case Nothing =>
      assert "" + b == b;
      SameFound(a + b, b);
    case Partial(s) => SameFound(a + b, s + b);
    case Object(text, tail) =>
      FindShrinks(a);
      ExtractMore(tail, b);
  }

  lemma FindShrinks(a: string)
    ensures Find(a).Object? ==> |Find(a).tail| < |a|
  {
  }

  /** However a stream is cut into pieces, feeding them one by one gives the same object texts and
      the same leftover as feeding it whole. */
  lemma {:induction false} PiecesDoNotMatter(pieces: seq<string>)
    ensures FeedAll(pieces) == Extract(Joined(pieces))
  {
    hide Extract;
    if pieces == [] {
      ExtractNone();
    } else {
      PiecesDoNotMatter(pieces[..|pieces| - 1]);
      ExtractMore(Joined(pieces[..|pieces| - 1]), pieces[|pieces| - 1]);
    }
  }

  lemma ExtractNone()
    ensures Extract("") == Cut([], "")
  {
  }

  // ----- What is taken out -----

  /** Gaps without a brace and objects, alternating. */
  function Woven(gaps: seq<string>, texts: seq<string>): string
    requires |gaps| == |texts|
  {
    if texts == [] then "" else gaps[0] + texts[0] + Woven(gaps[1..], texts[1..])
  }

  /** The object ends where its braces outside strings first balance, and not before. */
  ghost predicate Complete(t: string) {
    && t != "" && t[0] == '{'
    && BalancedAt(t, |t| - 1) && forall j :: 0 <= j < |t| - 1 ==> !BalancedAt(t, j)
  }

  /** Nothing of the stream is lost or reordered but characters between objects: the stream is the
      extracted objects, each complete, with braceless gaps between them, then a braceless gap and
      the leftover, which holds no complete object at its front. */
  lemma {:induction false} NothingLost(buf: string) returns (gaps: seq<string>, last: string)
    ensures var c := Extract(buf);
      && |gaps| == |c.texts| && buf == Woven(gaps, c.texts) + last + c.rest
      && (forall i :: 0 <= i < |gaps| ==> Braceless(gaps[i])) && Braceless(last)
      && (forall i :: 0 <= i < |c.texts| ==> Complete(c.texts[i]))
      && (c.rest == "" || (c.rest[0] == '{' && forall j :: 0 <= j < |c.rest| ==> !BalancedAt(c.rest, j)))
    decreases |buf|
  {
    hide Find, Complete, Woven;
    var gap := FindParts(buf);
    match Find(buf)
    case Nothing => gaps, last := [], gap; WovenNone();
    case Partial(_) => gaps, last := [], gap; WovenNone();
    case Object(text, tail) =>
      FindShrinks(buf);
      var more;
      more, last := NothingLost(tail);
      gaps := [gap] + more;
      OneMore(buf, gap, text, tail, more, last);
  }

  lemma WovenNone()
    ensures Woven([], []) == ""
  {
  }

  lemma FindParts(buf: string) returns (gap: string)
    ensures Braceless(gap)
    ensures match Find(buf)
      case Nothing => buf == gap
      case Partial(s) => buf == gap + s && s != "" && s[0] == '{' && forall j :: 0 <= j < |s| ==> !BalancedAt(s, j)
      case Object(text, tail) => buf == gap + text + tail && Complete(text)
  {
    hide Closing, Opening;
    var start := Opening(buf);
    gap := buf[..start];
    if start < |buf| {
      var s := buf[start..];
      var e := Closing(s, 0, 0, false);
      ClosingIsFirst(s);
      if e < |s| { FirstCompletes(s, e); }
    }
  }

  lemma OneMore(buf: string, gap: string, text: string, tail: string, more: seq<string>, last: string)
    requires buf == gap + text + tail
    requires var c := Extract(tail); |more| == |c.texts| && tail == Woven(more, c.texts) + last + c.rest
    ensures var c := Extract(tail); buf == Woven([gap] + more, [text] + c.texts) + last + c.rest
  {
    hide Extract;
    var c := Extract(tail);
    assert ([gap] + more)[1..] == more && ([text] + c.texts)[1..] == c.texts;
    assert Woven([gap] + more, [text] + c.texts) == gap + text + Woven(more, c.texts);
  }

  // ----- The client's function -----

  datatype Parsed<T> = Failed | Value(value: T)

  /** The values of the texts that parse. */
  function ParseAll<T>(parse: string -> Parsed<T>, texts: seq<string>): seq<T> {
    if texts == [] then []
    else
      var front := ParseAll(parse, texts[..|texts| - 1]);
      match parse(texts[|texts| - 1])
      case Failed => front
      case Value(v) => front + [v]
  }

  /** A text contributes its value if it parses and nothing if it does not, whatever is around it. */
  lemma {:induction false} EachTextCounts<T>(parse: string -> Parsed<T>, a: seq<string>, b: seq<string>)
    ensures ParseAll(parse, a + b) == ParseAll(parse, a) + ParseAll(parse, b)
    ensures forall t :: ParseAll(parse, [t]) == match parse(t) case Failed => [] case Value(v) => [v]
  {
    forall t ensures ParseAll(parse, [t]) == match parse(t) case Failed => [] case Value(v) => [v] {
      assert [t][..0] == [];
    }
    if b == [] {
      assert a + b == a;
    } else {
      assert (a + b)[..|a + b| - 1] == a + b[..|b| - 1];
      EachTextCounts(parse, a, b[..|b| - 1]);
    }
  }

  method FindOpening(s: string) returns (i: nat)
    ensures i == Opening(s)
  {
    i := 0;
    while i < |s| && s[i] != '{'
      invariant i <= |s| && forall j :: 0 <= j < i ==> s[j] != '{'
    {
      i := i + 1;
    }
    OpeningIs(s, i);
  }

  method FindClosing(s: string) returns (end: nat)
    ensures end == Closing(s, 0, 0, false) && FirstBalanced(s, end)
  {
    ClosingIsFirst(s);
    var depth, inString := 0, false;
    for i := 0 to |s|
      invariant Closing(s, i, depth, inString) == Closing(s, 0, 0, false)
    {
      var c := s[i];
      if c == '"' && (i == 0 || s[i - 1] != '\\') {
        inString := !inString;
      }
      if !inString {
        if c == '{' {
          depth := depth + 1;
        } else if c == '}' {
          depth := depth - 1;
        }
        if depth == 0 {
          return i;
        }
      }
    }
    return |s|;
  }

  method FindNext(buf: string) returns (f: Found)
    ensures f == Find(buf)
  {
    hide Opening, Closing;
    var start := FindOpening(buf);
    if start == |buf| {
      return Nothing;
    }
    var s := buf[start..];
    var end := FindClosing(s);
    if end == |s| {
      return Partial(s);
    }
    return Object(s[..end + 1], s[end + 1..]);
  }

  /** The buffer is consumed in place: what stays in it is returned beside the parsed objects. */
  method ExtractJsonObjects<T>(parse: string -> Parsed<T>, input: string) returns (objects: seq<T>, buffer: string)
    ensures objects == ParseAll(parse, Extract(input).texts) && buffer == Extract(input).rest
  {
    hide Find;
    buffer, objects := input, [];
    ghost var texts: seq<string> := [];
    FindNone();
    while buffer != ""
      invariant objects == ParseAll(parse, texts)
      invariant texts + Extract(buffer).texts == Extract(input).texts && Extract(buffer).rest == Extract(input).rest
      decreases |buffer|
    {
      FindShrinks(buffer);
      var found := FindNext(buffer);
      match found
      case Nothing =>
        buffer := "";
        break;
      case Partial(s) =>
        buffer := s;
        break;
      case Object(text, tail) =>
        ParseOne(parse, texts, text);
        SeqAssoc(texts, text, Extract(tail).texts);
        buffer, texts := tail, texts + [text];
        match parse(text)
        case Failed =>
        case Value(v) => objects := objects + [v];
    }
    assert texts + [] == texts;
  }

  lemma SeqAssoc(a: seq<string>, t: string, b: seq<string>)
    ensures a + ([t] + b) == (a + [t]) + b
  {
  }

  lemma ParseOne<T>(parse: string -> Parsed<T>, texts: seq<string>, text: string)
    ensures ParseAll(parse, texts + [text]) ==
      ParseAll(parse, texts) + match parse(text) case Failed => [] case Value(v) => [v]
  {
    assert (texts + [text])[..|texts|] == texts;
  }
}

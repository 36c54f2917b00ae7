/** The text post-processing of `crawlWebpage` (src/services/web-crawler.ts).
    Fetching the page and pruning its DOM happen outside the model: the
    caller supplies what they produced as a `FetchOutcome`. */
module WebCrawler {
  import opened Text

  /** What the HTTP GET and the HTML parser produced: the text of `<body>`
      once script, style, nav, footer and header elements are gone, or a
      failure of either step. */
  datatype FetchOutcome = BodyText(text: string) | FetchFailed

  /** `s.replace(/\s+/g, " ")`: every maximal whitespace run becomes one blank. */
  function Collapse(s: string): string
    decreases |s|
  {
    if s == [] then []
    else if IsSpace(s[0]) then " " + Collapse(TrimStart(s))
    else [s[0]] + Collapse(s[1..])
  }

  /** The whitespace normalisation of the crawler: collapse, then trim. */
  function Normalize(s: string): string {
    Trim(Collapse(s))
  }

  /** Every whitespace character is a blank and none is followed by another. */
  ghost predicate Collapsed(s: string) {
    (forall i :: 0 <= i < |s| && IsSpace(s[i]) ==> s[i] == ' ')
    && (forall i, j {:trigger s[i], s[j]} :: 0 <= i && j == i + 1 && j < |s| && IsSpace(s[i]) ==> !IsSpace(s[j]))
  }

  /** The shape of the crawler's page text: collapsed, and it neither starts
      nor ends with whitespace. */
  ghost predicate Normalized(s: string) {
    Collapsed(s) && (s == [] || (!IsSpace(s[0]) && !IsSpace(s[|s| - 1])))
  }

  const NoContentPrefix := "No meaningful content found at "
  const FailurePrefix := "Failed to crawl content from "

  /** `crawlWebpage(url)` once the fetch and the parse have happened. */
  function CrawlWebpage(url: string, fetch: FetchOutcome): string {
    match fetch
    case BodyText(body) =>
      var text := Normalize(body);
      if |text| > 0 then text else NoContentPrefix + url
    case FetchFailed => FailurePrefix + url + "."
  }

  /** Putting a character in front of a collapsed string keeps it
      collapsed, unless that adds a second whitespace character to a run or
      a whitespace character other than a blank. */
  lemma {:induction false} CollapsedCons(x: char, c: string)
    requires Collapsed(c)
    requires IsSpace(x) ==> x == ' ' && (c == [] || !IsSpace(c[0]))
    ensures Collapsed([x] + c)
  {
    var r := [x] + c;
    forall i | 0 <= i < |r| && IsSpace(r[i])
      ensures r[i] == ' '
    {
      if i > 0 {
        assert r[i] == c[i - 1];
      }
    }
    forall i, j {:trigger r[i], r[j]} | 0 <= i && j == i + 1 && j < |r| && IsSpace(r[i])
      ensures !IsSpace(r[j])
    {
      assert r[j] == c[i];
      if i > 0 {
        assert r[i] == c[i - 1];
      }
    }
  }

  /** Collapsing yields a collapsed string that is empty only for the empty
      input and that starts with whitespace only when the input does. */
  lemma {:induction false} CollapseCollapsed(s: string)
    ensures Collapsed(Collapse(s))
    ensures Collapse(s) == [] <==> s == []
    ensures s != [] ==> (IsSpace(Collapse(s)[0]) <==> IsSpace(s[0]))
    decreases |s|
  {
    if s != [] {
      if IsSpace(s[0]) {
        var t := TrimStart(s);
        CollapseCollapsed(t);
        CollapsedCons(' ', Collapse(t));
      } else {
        CollapseCollapsed(s[1..]);
        CollapsedCons(s[0], Collapse(s[1..]));
      }
    }
  }

  /** Collapsing keeps the non-whitespace characters, in order. */
  lemma {:induction false} StripCollapse(s: string)
    ensures Strip(Collapse(s)) == Strip(s)
    decreases |s|
  {
    if s != [] {
      if IsSpace(s[0]) {
        var t := TrimStart(s);
        StripCollapse(t);
        var k := |s| - |t|;
        assert s == s[..k] + t;
        StripAppend(s[..k], t);
        StripAllSpace(s[..k]);
        StripAppend(" ", Collapse(t));
        assert Strip(" ") == [];
      } else {
        StripCollapse(s[1..]);
        assert s == [s[0]] + s[1..];
        StripAppend([s[0]], s[1..]);
        StripAppend([s[0]], Collapse(s[1..]));
      }
    }
  }

  /** Collapsing ends where its input ends, on a non-whitespace character. */
  lemma {:induction false} CollapseKeepsEnd(a: string)
    requires a != [] && !IsSpace(a[|a| - 1])
    ensures Collapse(a) != [] && Collapse(a)[|Collapse(a)| - 1] == a[|a| - 1]
    decreases |a|
  {
    if IsSpace(a[0]) {
      TrimStartKeepsEnd(a);
      CollapseKeepsEnd(TrimStart(a));
    } else if |a| > 1 {
      CollapseKeepsEnd(a[1..]);
    }
  }

  /** No whitespace run crosses the end of a part that ends in
      non-whitespace, so such a part collapses on its own. */
  lemma {:induction false} CollapseAppend(a: string, b: string)
    requires a == [] || !IsSpace(a[|a| - 1])
    ensures Collapse(a + b) == Collapse(a) + Collapse(b)
    decreases |a|
  {
    if a == [] {
      assert a + b == b;
    } else if IsSpace(a[0]) {
      TrimStartKeepsEnd(a);
      CollapseAppend(TrimStart(a), b);
      CollapseAppendSpace(a, b);
    } else {
      var rest := a[1..];
      assert a == [a[0]] + rest;
      AppendAssoc([a[0]], rest, b);
      CollapseAppend(rest, b);
      AppendAssoc([a[0]], Collapse(rest), Collapse(b));
    }
  }

  /** `Collapse` on a string that starts with whitespace. */
  lemma {:induction false} CollapseSpaceHead(s: string)
    requires s != [] && IsSpace(s[0])
    ensures Collapse(s) == " " + Collapse(TrimStart(s))
  {
  }

  /** The step of `CollapseAppend` for a part that starts with whitespace. */
  lemma {:induction false} CollapseAppendSpace(a: string, b: string)
    requires a != [] && IsSpace(a[0]) && !IsSpace(a[|a| - 1])
    requires Collapse(TrimStart(a) + b) == Collapse(TrimStart(a)) + Collapse(b)
    ensures Collapse(a + b) == Collapse(a) + Collapse(b)
  {
    assert (a + b)[0] == a[0];
    CollapseSpaceHead(a + b);
    CollapseSpaceHead(a);
    TrimStartAppend(a, b);
    AppendAssoc(" ", Collapse(TrimStart(a)), Collapse(b));
  }

  /** A whitespace run between two non-whitespace characters, or at either
      end, becomes exactly one blank. */
  lemma {:induction false} CollapseRun(a: string, w: string, b: string)
    requires a == [] || !IsSpace(a[|a| - 1])
    requires w != [] && AllSpace(w)
    requires b == [] || !IsSpace(b[0])
    ensures Collapse(a + w + b) == Collapse(a) + " " + Collapse(b)
  {
    AppendAssoc(a, w, b);
    CollapseAppend(a, w + b);
    CollapseSpaces(w, b);
    AppendAssoc(Collapse(a), " ", Collapse(b));
  }

  /** A leading whitespace run becomes one blank. */
  lemma {:induction false} CollapseSpaces(w: string, b: string)
    requires w != [] && AllSpace(w)
    requires b == [] || !IsSpace(b[0])
    ensures Collapse(w + b) == " " + Collapse(b)
  {
    assert (w + b)[0] == w[0];
    CollapseSpaceHead(w + b);
    TrimStartSpaces(w, b);
  }

  /** Deleting whitespace from `s` leaves nothing only when `s` is all whitespace. */
  lemma {:induction false} StripEmpty(s: string)
    ensures Strip(s) == [] <==> AllSpace(s)
    decreases |s|
  {
    if s != [] {
      StripEmpty(s[1..]);
      if AllSpace(s) {
        assert AllSpace(s[1..]);
      } else if AllSpace(s[1..]) {
        assert !IsSpace(s[0]);
      }
    }
  }

  /** Every slice of a collapsed string is collapsed. */
  lemma {:induction false} CollapsedSlice(c: string, a: nat, b: nat)
    requires a <= b <= |c| && Collapsed(c)
    ensures Collapsed(c[a..b])
  {
    var r := c[a..b];
    forall i | 0 <= i < |r| && IsSpace(r[i])
      ensures r[i] == ' '
    {
      assert r[i] == c[a + i];
    }
    forall i, j {:trigger r[i], r[j]} | 0 <= i && j == i + 1 && j < |r| && IsSpace(r[i])
      ensures !IsSpace(r[j])
    {
      assert r[i] == c[a + i];
      assert r[j] == c[a + j];
    }
  }

  /** Trimming deletes only whitespace. */
  lemma {:induction false} StripTrim(c: string)
    ensures Strip(Trim(c)) == Strip(c)
  {
    StripTrimStart(c);
    StripTrimEnd(TrimStart(c));
  }

  /** Dropping leading whitespace deletes only whitespace. */
  lemma {:induction false} StripTrimStart(c: string)
    ensures Strip(TrimStart(c)) == Strip(c)
    decreases |c|
  {
    if c != [] && IsSpace(c[0]) {
      StripTrimStart(c[1..]);
    }
  }

  /** Dropping trailing whitespace deletes only whitespace. */
  lemma {:induction false} StripTrimEnd(t: string)
    ensures Strip(TrimEnd(t)) == Strip(t)
  {
    var r := TrimEnd(t);
    assert t == r + t[|r|..];
    StripAppend(r, t[|r|..]);
    StripAllSpace(t[|r|..]);
  }

  /** After normalisation the text is in the crawler's shape and keeps every
      non-whitespace character of its input, in order. */
  lemma {:induction false} NormalizeShape(s: string)
    ensures Normalized(Normalize(s))
    ensures Strip(Normalize(s)) == Strip(s)
  {
    NormalizeCollapsed(s);
    TrimEnds(Collapse(s));
    NormalizeKeepsText(s);
  }

  /** Normalised text has no run of whitespace and no whitespace but blanks. */
  lemma {:induction false} NormalizeCollapsed(s: string)
    ensures Collapsed(Normalize(s))
  {
    CollapseCollapsed(s);
    CollapsedTrimStart(Collapse(s));
    CollapsedTrimEnd(TrimStart(Collapse(s)));
  }

  /** Dropping leading whitespace keeps a string collapsed. */
  lemma {:induction false} CollapsedTrimStart(c: string)
    requires Collapsed(c)
    ensures Collapsed(TrimStart(c))
  {
    var t := TrimStart(c);
    CollapsedSlice(c, |c| - |t|, |c|);
    assert t == c[|c| - |t|..|c|];
  }

  /** Dropping trailing whitespace keeps a string collapsed. */
  lemma {:induction false} CollapsedTrimEnd(t: string)
    requires Collapsed(t)
    ensures Collapsed(TrimEnd(t))
  {
    CollapsedSlice(t, 0, |TrimEnd(t)|);
  }

  /** Normalisation deletes only whitespace. */
  lemma {:induction false} NormalizeKeepsText(s: string)
    ensures Strip(Normalize(s)) == Strip(s)
  {
    StripCollapse(s);
    StripTrim(Collapse(s));
  }

  /** Normalisation puts exactly one blank between two pieces of text that
      whitespace separates, and normalises each piece on its own. */
  lemma {:induction false} NormalizeRun(a: string, w: string, b: string)
    requires a != [] && !IsSpace(a[|a| - 1])
    requires w != [] && AllSpace(w)
    requires b != [] && !IsSpace(b[0])
    ensures Normalize(a + w + b) == Normalize(a) + " " + Normalize(b)
  {
    CollapseRun(a, w, b);
    CollapseKeepsEnd(a);
    CollapseCollapsed(b);
    TrimJoin(Collapse(a), Collapse(b));
  }

  /** Trimming two pieces joined by one blank, where the blank touches no
      other whitespace, trims each piece on its own. */
  lemma {:induction false} TrimJoin(x: string, y: string)
    requires x != [] && !IsSpace(x[|x| - 1])
    requires y != [] && !IsSpace(y[0])
    ensures Trim(x + " " + y) == Trim(x) + " " + Trim(y)
  {
    var t := TrimStart(x);
    AppendAssoc(x, " ", y);
    TrimStartAppend(x, " " + y);
    TrimStartKeepsEnd(x);
    assert TrimEnd(t) == t;
    assert TrimStart(y) == y;
    AppendAssoc(t, " ", y);
    TrimEndPrepend(t + " ", y);
    AppendAssoc(t, " ", TrimEnd(y));
  }

  /** What `Collapsed` says about the first character and the rest. */
  lemma {:induction false} CollapsedHead(s: string)
    requires Collapsed(s) && s != []
    ensures IsSpace(s[0]) ==> s[0] == ' ' && (|s| == 1 || !IsSpace(s[1]))
    ensures Collapsed(s[1..])
  {
    CollapsedSlice(s, 1, |s|);
  }

  /** One step of `Collapse` over a string whose tail is already collapsed. */
  lemma {:induction false} CollapseStep(s: string)
    requires s != [] && Collapse(s[1..]) == s[1..]
    requires IsSpace(s[0]) ==> s[0] == ' ' && (|s| == 1 || !IsSpace(s[1]))
    ensures Collapse(s) == s
  {
    var rest := s[1..];
    if IsSpace(s[0]) {
      assert rest == [] || !IsSpace(rest[0]);
      assert TrimStart(s) == rest;
    }
    assert s == [s[0]] + rest;
  }

  /** A collapsed string has nothing left to collapse. */
  lemma {:induction false} CollapseOfCollapsed(s: string)
    requires Collapsed(s)
    ensures Collapse(s) == s
    decreases |s|
  {
    if s != [] {
      CollapsedHead(s);
      CollapseOfCollapsed(s[1..]);
      CollapseStep(s);
    }
  }

  /** Normalisation leaves a string unchanged exactly when it already has
      the crawler's shape. */
  lemma {:induction false} NormalizeFixedPoint(t: string)
    ensures Normalize(t) == t <==> Normalized(t)
  {
    if Normalized(t) {
      CollapseOfCollapsed(t);
      assert TrimStart(t) == t;
    } else {
      NormalizeShape(t);
    }
  }

  /** Normalising twice is normalising once. */
  lemma {:induction false} NormalizeIdempotent(s: string)
    ensures Normalize(Normalize(s)) == Normalize(s)
  {
    NormalizeShape(s);
    NormalizeFixedPoint(Normalize(s));
  }

  /** Normalisation leaves nothing exactly when the input is all whitespace. */
  lemma {:induction false} NormalizeEmptyIff(s: string)
    ensures Normalize(s) == [] <==> AllSpace(s)
  {
    NormalizeShape(s);
    StripEmpty(s);
    StripEmpty(Normalize(s));
  }

  /** The three results of `crawlWebpage`: page text in normalised shape when
      the body holds anything but whitespace, the no-content sentinel when it
      holds only whitespace, and the failure sentinel when fetching or
      parsing failed. It never throws: every outcome is a string. */
  lemma {:induction false} CrawlResult(url: string, fetch: FetchOutcome)
    ensures fetch.BodyText? && !AllSpace(fetch.text) ==>
      var r := CrawlWebpage(url, fetch);
      r == Normalize(fetch.text) && r != [] && Normalized(r) && Strip(r) == Strip(fetch.text)
    ensures fetch.BodyText? && AllSpace(fetch.text) ==>
      CrawlWebpage(url, fetch) == "No meaningful content found at " + url
    ensures fetch.FetchFailed? ==>
      CrawlWebpage(url, fetch) == "Failed to crawl content from " + url + "."
  {
    if fetch.BodyText? {
      NormalizeShape(fetch.text);
      NormalizeEmptyIff(fetch.text);
    }
  }
}

/**
 * The web-search helpers that mcp/tools_web.py and mcp/tools_web_serper.py
 * share: whitespace clipping, tag stripping, the URL-deduplicating merge,
 * result cleaning, the recency filter, reranking, the final order and the
 * output record. The two files differ only in a few constants and in how the
 * reranker hands back its scores, which `Variant` selects. The clock, the
 * timestamp parser, the reranker scores and the language model are parameters.
 */
module WebCommon {
  import opened Common
  import opened Seqs
  import opened State
  import Llm

  /**
   * A search result. `published` is the date field the variant reads:
   * "published_at" for Tavily, "date" for Serper.
   */
  datatype Doc = Doc(title: string, url: string, snippet: string, rawContent: string,
                     source: string, published: string, score: real)

  /** The two providers: Tavily (mcp/tools_web.py) and Serper (mcp/tools_web_serper.py). */
  datatype Variant = Tavily | Serper

  // ---------------------------------------------------------------------
  // Whitespace and tags

  /** Two spaces in a row start at i. */
  predicate DoubleSpaceAt(s: string, i: int)
    requires 0 <= i < |s| - 1
  {
    s[i] == ' ' && s[i + 1] == ' '
  }

  /** Whitespace appears only as single spaces. */
  predicate SingleSpaced(s: string)
  {
    && (forall i :: 0 <= i < |s| ==> (IsSpace(s[i]) ==> s[i] == ' '))
    && (forall i :: 0 <= i < |s| - 1 ==> !DoubleSpaceAt(s, i))
  }

  lemma SingleSpacedSlice(s: string, i: nat, j: nat)
    requires i <= j <= |s| && SingleSpaced(s)
    ensures SingleSpaced(s[i..j])
  {
    var t := s[i..j];
    assert forall k :: 0 <= k < |t| ==> t[k] == s[i + k];
    forall k | 0 <= k < |t| - 1
      ensures !DoubleSpaceAt(t, k)
    {
      assert !DoubleSpaceAt(s, i + k);
    }
  }

  /** `re.sub(r"\s+", " ", s)`: each maximal run of whitespace becomes one space. */
  function CollapseSpaces(s: string): (r: string)
    ensures |r| <= |s|
    ensures s != [] ==> r != [] && (IsSpace(s[0]) ==> r[0] == ' ') && (!IsSpace(s[0]) ==> r[0] == s[0])
    decreases |s|
  {
    if s == [] then []
    else if IsSpace(s[0]) then
      var rest := StripLeft(s);
      assert |rest| < |s|;
      " " + CollapseSpaces(rest)
    else [s[0]] + CollapseSpaces(s[1..])
  }

  /** The collapsed text is single-spaced. */
  lemma {:induction false} CollapseSpacesSingle(s: string)
    ensures SingleSpaced(CollapseSpaces(s))
    decreases |s|
  {
    if s != [] {
      var t := if IsSpace(s[0]) then StripLeft(s) else s[1..];
      CollapseSpacesSingle(t);
      var c := CollapseSpaces(t);
      var r := CollapseSpaces(s);
      assert r == (if IsSpace(s[0]) then " " else [s[0]]) + c;
      assert IsSpace(s[0]) && c != [] ==> !IsSpace(t[0]) && c[0] == t[0];
      forall i | 0 <= i < |r|
        ensures IsSpace(r[i]) ==> r[i] == ' '
      {
        if i > 0 {
          assert r[i] == c[i - 1];
        }
      }
      forall i | 0 <= i < |r| - 1
        ensures !DoubleSpaceAt(r, i)
      {
        if i > 0 {
          assert r[i] == c[i - 1] && r[i + 1] == c[i];
          assert !DoubleSpaceAt(c, i - 1);
        }
      }
    }
  }

  /** Every character of r is a plain space or a non-whitespace character with property p. */
  predicate OnlySpacesAnd(r: string, p: char -> bool)
  {
    forall i :: 0 <= i < |r| ==> r[i] == ' ' || (!IsSpace(r[i]) && p(r[i]))
  }

  /** A property every non-whitespace character of the input has, every non-space character of the collapsed text has. */
  lemma {:induction false} CollapseSpacesKeeps(s: string, p: char -> bool)
    requires forall i :: 0 <= i < |s| ==> IsSpace(s[i]) || p(s[i])
    ensures OnlySpacesAnd(CollapseSpaces(s), p)
    decreases |s|
  {
    if s != [] {
      var t := if IsSpace(s[0]) then StripLeft(s) else s[1..];
      assert t == s[|s| - |t|..] && |t| < |s|;
      assert forall k :: 0 <= k < |t| ==> t[k] == s[|s| - |t| + k];
      CollapseSpacesKeeps(t, p);
      var c := CollapseSpaces(t);
      assert OnlySpacesAnd(c, p);
      var r := CollapseSpaces(s);
      assert r == (if IsSpace(s[0]) then " " else [s[0]]) + c;
      forall i | 0 <= i < |r|
        ensures r[i] == ' ' || (!IsSpace(r[i]) && p(r[i]))
      {
        if i > 0 {
          assert r[i] == c[i - 1];
        } else if !IsSpace(s[0]) {
          assert r[0] == s[0] && p(s[0]);
        }
      }
    }
  }

  /** Text that is already single-spaced is left as it is. */
  lemma {:induction false} CollapseSingleSpaced(s: string)
    requires SingleSpaced(s)
    ensures CollapseSpaces(s) == s
    decreases |s|
  {
    if s != [] {
      SingleSpacedSlice(s, 1, |s|);
      assert s[1..|s|] == s[1..];
      CollapseSingleSpaced(s[1..]);
      if IsSpace(s[0]) && |s| > 1 {
        assert !DoubleSpaceAt(s, 0);
        assert StripLeft(s[1..]) == s[1..];
      }
    }
  }

  /** Stripping the left of single-spaced text keeps it single-spaced. */
  lemma StripLeftSingleSpaced(c: string)
    requires SingleSpaced(c)
    ensures SingleSpaced(StripLeft(c))
  {
    var l := StripLeft(c);
    assert l == c[|c| - |l|..|c|];
    SingleSpacedSlice(c, |c| - |l|, |c|);
  }

  /** Stripping the right of single-spaced text keeps it single-spaced. */
  lemma StripRightSingleSpaced(c: string)
    requires SingleSpaced(c)
    ensures SingleSpaced(StripRight(c))
  {
    var t := StripRight(c);
    assert t == c[0..|t|];
    SingleSpacedSlice(c, 0, |t|);
  }

  /** Stripping single-spaced text keeps it single-spaced. */
  lemma StripSingleSpaced(c: string)
    requires SingleSpaced(c)
    ensures SingleSpaced(Strip(c))
  {
    StripLeftSingleSpaced(c);
    StripRightSingleSpaced(StripLeft(c));
  }

  /**
   * `_clip(s, n)`: the single-spaced, stripped text cut to n characters.
   * The cut can leave a trailing space.
   */
  function Clip(s: string, n: nat): (r: string)
    ensures |r| <= n && SingleSpaced(r)
    ensures r == [] || !IsSpace(r[0])
  {
    CollapseSpacesSingle(s);
    var t := Strip(CollapseSpaces(s));
    StripSingleSpaced(CollapseSpaces(s));
    var r := Take(t, n);
    SingleSpacedSlice(t, 0, |r|);
    assert t[0..|r|] == r;
    r
  }

  /** The clip is a prefix of the stripped single-spaced text, and all of it when that fits in n. */
  lemma ClipPrefix(s: string, n: nat)
    ensures StartsWith(Strip(CollapseSpaces(s)), Clip(s, n))
    ensures |Strip(CollapseSpaces(s))| <= n ==> Clip(s, n) == Strip(CollapseSpaces(s))
  {
  }

  /** Clipping leaves clean text of at most n characters unchanged. */
  lemma ClipFixpoint(s: string, n: nat)
    requires SingleSpaced(s) && (s == [] || (!IsSpace(s[0]) && !IsSpace(s[|s| - 1])))
    requires |s| <= n
    ensures Clip(s, n) == s
  {
    CollapseSingleSpaced(s);
    StripOfStripped(s);
  }

  /** The index of the '>' that closes a tag opened before i, unless a newline or the end comes first. */
  function TagEnd(s: string, i: nat): (r: Option<nat>)
    requires i <= |s|
    ensures r.Some? ==> i <= r.value < |s| && s[r.value] == '>'
    ensures r.Some? ==> forall k :: i <= k < r.value ==> s[k] != '>' && s[k] != '\n'
    decreases |s| - i
  {
    if i == |s| || s[i] == '\n' then None
    else if s[i] == '>' then Some(i)
    else TagEnd(s, i + 1)
  }

  /** `re.sub(r"<.*?>", "", s)`: each '<' up to the nearest '>' on the same line is removed. */
  function StripTags(s: string): (r: string)
    ensures |r| <= |s|
    decreases |s|
  {
    if s == [] then []
    else if s[0] == '<' && TagEnd(s, 1).Some? then StripTags(s[TagEnd(s, 1).value + 1..])
    else [s[0]] + StripTags(s[1..])
  }

  /** Text without '<' has no tag to strip. */
  lemma {:induction false} StripTagsNoOpen(s: string)
    requires '<' !in s
    ensures StripTags(s) == s
    decreases |s|
  {
    if s != [] {
      assert '<' !in s[1..] by {
        forall k | 0 <= k < |s[1..]| ensures s[1..][k] != '<' {
          assert s[1..][k] == s[k + 1];
        }
      }
      StripTagsNoOpen(s[1..]);
    }
  }

  // ---------------------------------------------------------------------
  // Merge and cleaning

  predicate DistinctUrls(s: seq<Doc>)
  {
    forall i, j :: 0 <= i < j < |s| ==> s[i].url != s[j].url
  }

  function UrlsOf(s: seq<Doc>): set<string>
  {
    set d | d in s :: d.url
  }

  /**
   * The loop of `_merge_unique` over `s` once the URLs in `seen` are taken:
   * a document is dropped when its URL is empty or already seen.
   */
  function DedupFrom(s: seq<Doc>, seen: set<string>): (r: seq<Doc>)
    ensures forall x :: x in r ==> x.url != "" && x.url !in seen
    ensures DistinctUrls(r)
    decreases |s|
  {
    if s == [] then []
    else
      var d := s[0];
      var t := s[1..];
      if d.url == "" || d.url in seen then
        DedupFrom(t, seen)
      else
        var rest := DedupFrom(t, seen + {d.url});
        var r := [d] + rest;
        assert r[1..] == rest;
        r
  }

  /** The merge keeps documents in their input order. */
  lemma {:induction false} DedupSubseq(s: seq<Doc>, seen: set<string>)
    ensures Subseq(DedupFrom(s, seen), s)
    decreases |s|
  {
    if s != [] {
      var d := s[0];
      if d.url == "" || d.url in seen {
        DedupSubseq(s[1..], seen);
        SubseqSkip(DedupFrom(s[1..], seen), s);
      } else {
        DedupSubseq(s[1..], seen + {d.url});
        var r := DedupFrom(s, seen);
        assert r[0] == s[0] && r[1..] == DedupFrom(s[1..], seen + {d.url});
      }
    }
  }

  /** The first document with each fresh, non-empty URL is the one kept. */
  lemma {:induction false} DedupKeepsFirst(s: seq<Doc>, seen: set<string>, k: nat)
    requires k < |s| && s[k].url != "" && s[k].url !in seen
    requires forall j :: 0 <= j < k ==> s[j].url != s[k].url
    ensures s[k] in DedupFrom(s, seen)
    decreases k
  {
    var d := s[0];
    var t := s[1..];
    if k > 0 {
      assert s[k] == t[k - 1];
      assert forall j :: 0 <= j < k - 1 ==> t[j] == s[j + 1];
      if d.url == "" || d.url in seen {
        DedupKeepsFirst(t, seen, k - 1);
      } else {
        DedupKeepsFirst(t, seen + {d.url}, k - 1);
      }
    }
  }

  /** The non-empty URLs of the documents in s. */
  function FreshUrls(s: seq<Doc>): set<string>
  {
    if s == [] then {}
    else FreshUrls(s[1..]) + (if s[0].url != "" then {s[0].url} else {})
  }

  /** Deduplicating a concatenation deduplicates the second part against the first's URLs. */
  lemma {:induction false} DedupAppend(a: seq<Doc>, b: seq<Doc>, seen: set<string>)
    ensures DedupFrom(a + b, seen) == DedupFrom(a, seen) + DedupFrom(b, seen + FreshUrls(a))
    decreases |a|
  {
    if a == [] {
      assert a + b == b;
      assert FreshUrls(a) == {};
      assert seen + {} == seen;
    } else {
      var d := a[0];
      assert (a + b)[0] == d && (a + b)[1..] == a[1..] + b;
      if d.url == "" || d.url in seen {
        calc {
          DedupFrom(a + b, seen);
          DedupFrom(a[1..] + b, seen);
          { DedupAppend(a[1..], b, seen); }
          DedupFrom(a[1..], seen) + DedupFrom(b, seen + FreshUrls(a[1..]));
          { assert seen + FreshUrls(a) == seen + FreshUrls(a[1..]); }
          DedupFrom(a, seen) + DedupFrom(b, seen + FreshUrls(a));
        }
      } else {
        var seen' := seen + {d.url};
        calc {
          DedupFrom(a + b, seen);
          [d] + DedupFrom(a[1..] + b, seen');
          { DedupAppend(a[1..], b, seen'); }
          [d] + (DedupFrom(a[1..], seen') + DedupFrom(b, seen' + FreshUrls(a[1..])));
          { assert seen' + FreshUrls(a[1..]) == seen + FreshUrls(a); }
          ([d] + DedupFrom(a[1..], seen')) + DedupFrom(b, seen + FreshUrls(a));
          DedupFrom(a, seen) + DedupFrom(b, seen + FreshUrls(a));
        }
      }
    }
  }

  /** Nothing survives when every URL is empty or already seen. */
  lemma {:induction false} DedupCovered(s: seq<Doc>, seen: set<string>)
    requires FreshUrls(s) <= seen
    ensures DedupFrom(s, seen) == []
    decreases |s|
  {
    if s != [] {
      DedupCovered(s[1..], seen);
    }
  }

  /** `_merge_unique(A, A)` is `_merge_unique(A, [])`: the second copy adds nothing. */
  lemma MergeSelf(a: seq<Doc>)
    ensures DedupFrom(a + a, {}) == DedupFrom(a + [], {})
  {
    DedupAppend(a, a, {});
    DedupCovered(a, {} + FreshUrls(a));
    assert a + [] == a;
  }

  /** One step of the merge: the first document is kept exactly when its URL is new. */
  lemma DedupStep(s: seq<Doc>, seen: set<string>)
    requires s != []
    ensures DedupFrom(s, seen) ==
      if s[0].url == "" || s[0].url in seen then DedupFrom(s[1..], seen)
      else [s[0]] + DedupFrom(s[1..], seen + {s[0].url})
  {
  }

  /** The loop of `_merge_unique` keeps its invariant. */
  lemma MergeLoopStep(all: seq<Doc>, i: nat, seen: set<string>, merged: seq<Doc>)
    requires i < |all|
    requires merged + DedupFrom(all[i..], seen) == DedupFrom(all, {})
    ensures var d := all[i];
      if d.url != "" && d.url !in seen then
        (merged + [d]) + DedupFrom(all[i + 1..], seen + {d.url}) == DedupFrom(all, {})
      else merged + DedupFrom(all[i + 1..], seen) == DedupFrom(all, {})
  {
    var d := all[i];
    var rest := all[i..];
    assert rest[0] == d && rest[1..] == all[i + 1..];
    DedupStep(rest, seen);
    if d.url != "" && d.url !in seen {
      var tail := DedupFrom(all[i + 1..], seen + {d.url});
      assert (merged + [d]) + tail == merged + ([d] + tail);
    }
  }

  /** `_merge_unique`: one pass over docs1 + docs2 with a set of seen URLs. */
  method MergeUnique(docs1: seq<Doc>, docs2: seq<Doc>) returns (merged: seq<Doc>)
    ensures merged == DedupFrom(docs1 + docs2, {})
  {
    var all := docs1 + docs2;
    var seen: set<string> := {};
    merged := [];
    var i := 0;
    while i < |all|
      invariant 0 <= i <= |all|
      invariant merged + DedupFrom(all[i..], seen) == DedupFrom(all, {})
    {
      var d := all[i];
      MergeLoopStep(all, i, seen, merged);
      if d.url != "" && d.url !in seen {
        seen := seen + {d.url};
        merged := merged + [d];
      }
      i := i + 1;
    }
    assert all[|all|..] == [];
  }

  /** `_clip(re.sub(r"<.*?>", "", s))`: what `_clean_results` makes of a title and of a snippet. */
  function CleanText(s: string): (r: string)
    ensures |r| <= 300
  {
    Clip(StripTags(s), 300)
  }

  /** The document with `clean` applied to its title and snippet, its other fields kept. */
  function CleanWith(d: Doc, clean: string -> string): Doc
  {
    Doc(clean(d.title), d.url, clean(d.snippet), d.rawContent, d.source, d.published, d.score)
  }

  /** The shortest snippet `_clean_results` keeps: 15 for Tavily, 5 for Serper. */
  function MinSnippet(v: Variant): nat
  {
    if v.Tavily? then 15 else 5
  }

  /** What every cleaned survivor looks like. */
  predicate Cleaned(d: Doc, minSnippet: nat)
  {
    d.url != "" && 3 <= |d.title| <= 300 && minSnippet <= |d.snippet| <= 300
  }

  /** A cleaned document that `_clean_results` keeps when its URL is new. */
  predicate Passes(c: Doc, minSnippet: nat)
  {
    c.url != "" && |c.title| >= 3 && |c.snippet| >= minSnippet
  }

  /**
   * The loop of `_clean_results` over already-cleaned documents once the URLs
   * in `seen` are taken. A URL enters `seen` only when its document is kept,
   * so a later duplicate of a dropped document can still be kept.
   */
  function KeepFrom(cs: seq<Doc>, seen: set<string>, minSnippet: nat): (r: seq<Doc>)
    ensures forall x :: x in r ==> Passes(x, minSnippet) && x.url !in seen
    ensures DistinctUrls(r)
    decreases |cs|
  {
    if cs == [] then []
    else
      var c := cs[0];
      if c.url in seen || !Passes(c, minSnippet) then
        KeepFrom(cs[1..], seen, minSnippet)
      else
        var rest := KeepFrom(cs[1..], seen + {c.url}, minSnippet);
        var r := [c] + rest;
        assert r[1..] == rest;
        r
  }

  lemma {:induction false} KeepSubseq(cs: seq<Doc>, seen: set<string>, minSnippet: nat)
    ensures Subseq(KeepFrom(cs, seen, minSnippet), cs)
    decreases |cs|
  {
    if cs != [] {
      var c := cs[0];
      if c.url in seen || !Passes(c, minSnippet) {
        KeepSubseq(cs[1..], seen, minSnippet);
        SubseqSkip(KeepFrom(cs[1..], seen, minSnippet), cs);
      } else {
        KeepSubseq(cs[1..], seen + {c.url}, minSnippet);
        var r := KeepFrom(cs, seen, minSnippet);
        assert r[0] == cs[0] && r[1..] == KeepFrom(cs[1..], seen + {c.url}, minSnippet);
      }
    }
  }

  /** A passing document with a fresh URL has its URL among the survivors'. */
  lemma {:induction false} KeepPassing(cs: seq<Doc>, seen: set<string>, minSnippet: nat, k: nat)
    requires k < |cs| && Passes(cs[k], minSnippet) && cs[k].url !in seen
    ensures cs[k].url in UrlsOf(KeepFrom(cs, seen, minSnippet))
    decreases k
  {
    var c := cs[0];
    var t := cs[1..];
    var r := KeepFrom(cs, seen, minSnippet);
    if c.url in seen || !Passes(c, minSnippet) {
      assert k > 0 && cs[k] == t[k - 1];
      KeepPassing(t, seen, minSnippet, k - 1);
    } else {
      var rest := KeepFrom(t, seen + {c.url}, minSnippet);
      assert r == [c] + rest;
      assert r[0] in r;
      if cs[k].url != c.url {
        assert k > 0 && cs[k] == t[k - 1];
        KeepPassing(t, seen + {c.url}, minSnippet, k - 1);
        var x :| x in rest && x.url == cs[k].url;
        assert x in r;
      }
    }
  }

  /** Every document with `clean` applied, in order. */
  function CleanAll(docs: seq<Doc>, clean: string -> string): (cs: seq<Doc>)
    ensures |cs| == |docs|
  {
    if docs == [] then [] else [CleanWith(docs[0], clean)] + CleanAll(docs[1..], clean)
  }

  lemma {:induction false} CleanAllAt(docs: seq<Doc>, clean: string -> string, k: nat)
    requires k < |docs|
    ensures CleanAll(docs, clean)[k] == CleanWith(docs[k], clean)
    decreases k
  {
    if k > 0 {
      CleanAllAt(docs[1..], clean, k - 1);
      assert docs[1..][k - 1] == docs[k];
    }
  }

  /** `_clean_results`, specified: the cleaned documents that pass, first URL winning. */
  function CleanSpec(docs: seq<Doc>, minSnippet: nat): seq<Doc>
  {
    KeepFrom(CleanAll(docs, CleanText), {}, minSnippet)
  }

  /** Survivors of the loop with any cleaner whose output fits in 300 characters. */
  lemma KeepCleanedSurvivors(docs: seq<Doc>, minSnippet: nat, clean: string -> string)
    requires forall t :: |clean(t)| <= 300
    ensures var r := KeepFrom(CleanAll(docs, clean), {}, minSnippet);
      && (forall x :: x in r ==> Cleaned(x, minSnippet))
      && DistinctUrls(r) && Subseq(r, CleanAll(docs, clean))
      && (forall k :: 0 <= k < |docs| && Passes(CleanWith(docs[k], clean), minSnippet) ==> docs[k].url in UrlsOf(r))
  {
    var cs := CleanAll(docs, clean);
    var r := KeepFrom(cs, {}, minSnippet);
    KeepSubseq(cs, {}, minSnippet);
    SubseqMembers(r, cs);
    forall x | x in r
      ensures Cleaned(x, minSnippet)
    {
      var k :| 0 <= k < |cs| && cs[k] == x;
      CleanAllAt(docs, clean, k);
    }
    forall k | 0 <= k < |docs| && Passes(CleanWith(docs[k], clean), minSnippet)
      ensures docs[k].url in UrlsOf(r)
    {
      CleanAllAt(docs, clean, k);
      KeepPassing(cs, {}, minSnippet, k);
    }
  }

  /**
   * What survives cleaning: a non-empty URL, a title of 3 to 300 characters,
   * a snippet of `minSnippet` to 300, distinct URLs, input order; and every
   * document that passes has its URL among the survivors.
   */
  lemma CleanSpecSurvivors(docs: seq<Doc>, minSnippet: nat)
    ensures var r := CleanSpec(docs, minSnippet);
      && (forall x :: x in r ==> Cleaned(x, minSnippet))
      && DistinctUrls(r) && Subseq(r, CleanAll(docs, CleanText))
      && (forall k :: 0 <= k < |docs| && Passes(CleanWith(docs[k], CleanText), minSnippet) ==> docs[k].url in UrlsOf(r))
  {
    KeepCleanedSurvivors(docs, minSnippet, CleanText);
  }

  /**
   * The loop of `_clean_results` with the text cleaning passed as `clean`: a
   * document without a URL or with one already kept is skipped; otherwise its
   * title and snippet are cleaned, and it is kept, cleaned, when they are long enough.
   */
  method CleanResultsWith(docs: seq<Doc>, minSnippet: nat, clean: string -> string) returns (out: seq<Doc>)
    ensures out == KeepFrom(CleanAll(docs, clean), {}, minSnippet)
  {
    var seen: set<string> := {};
    out := [];
    var i := 0;
    while i < |docs|
      invariant 0 <= i <= |docs|
      invariant out + KeepFrom(CleanAll(docs[i..], clean), seen, minSnippet) == KeepFrom(CleanAll(docs, clean), {}, minSnippet)
    {
      var d := docs[i];
      ghost var rest := CleanAll(docs[i..], clean);
      assert docs[i..][0] == d && docs[i..][1..] == docs[i + 1..];
      assert rest[0] == CleanWith(d, clean) && rest[1..] == CleanAll(docs[i + 1..], clean);
      if d.url != "" && d.url !in seen {
        var title := clean(d.title);
        var snippet := clean(d.snippet);
        if |title| >= 3 && |snippet| >= minSnippet {
          d := Doc(title, d.url, snippet, d.rawContent, d.source, d.published, d.score);
          seen := seen + {d.url};
          out := out + [d];
        }
      }
      i := i + 1;
    }
    assert docs[|docs|..] == [];
  }

  /** `_clean_results`. */
  method CleanResults(docs: seq<Doc>, minSnippet: nat) returns (out: seq<Doc>)
    ensures out == CleanSpec(docs, minSnippet)
  {
    out := CleanResultsWith(docs, minSnippet, CleanText);
  }

  // ---------------------------------------------------------------------
  // Recency

  /** The clock (`time.time()`) and `_to_ts`, which gives 0.0 for a date it cannot read. */
  datatype Clock = Clock(now: real, ts: string -> real)

  /** `time.time() - recency_days * 86400`. */
  function Cutoff(now: real, days: int): real
  {
    now - (days * 86400) as real
  }

  /** An undated document, or one published at or after the cutoff. */
  predicate Recent(d: Doc, cutoff: real, ts: string -> real)
  {
    ts(d.published) == 0.0 || ts(d.published) >= cutoff
  }

  function RecentTest(cutoff: real, ts: string -> real): Doc -> bool
  {
    (d: Doc) => Recent(d, cutoff, ts)
  }

  /** `_apply_recency_filter`, specified. */
  function RecencyFilter(items: seq<Doc>, days: int, clock: Clock): (r: seq<Doc>)
    ensures days <= 0 ==> r == items
    ensures days > 0 ==> forall x :: x in r <==> x in items && Recent(x, Cutoff(clock.now, days), clock.ts)
  {
    if days <= 0 then items
    else Filter(items, RecentTest(Cutoff(clock.now, days), clock.ts))
  }

  /** The filter keeps the input order. */
  lemma RecencyFilterSubseq(items: seq<Doc>, days: int, clock: Clock)
    ensures Subseq(RecencyFilter(items, days, clock), items)
  {
    if days <= 0 {
      SubseqRefl(items);
    } else {
      FilterSubseq(items, RecentTest(Cutoff(clock.now, days), clock.ts));
    }
  }

  /** `_apply_recency_filter`: the loop that keeps recent or undated documents. */
  method ApplyRecencyFilter(items: seq<Doc>, days: int, clock: Clock) returns (out: seq<Doc>)
    ensures out == RecencyFilter(items, days, clock)
  {
    if days <= 0 {
      return items;
    }
    var cutoff := Cutoff(clock.now, days);
    ghost var keep := RecentTest(cutoff, clock.ts);
    out := [];
    var i := 0;
    while i < |items|
      invariant 0 <= i <= |items|
      invariant out == Filter(items[..i], keep)
    {
      var d := items[i];
      assert items[..i + 1] == items[..i] + [d];
      FilterSnoc(items[..i], d, keep);
      var t := clock.ts(d.published);
      if t == 0.0 || t >= cutoff {
        out := out + [d];
      }
      i := i + 1;
    }
    assert items[..|items|] == items;
  }

  /** A longer window keeps everything a shorter positive one keeps, in the same order. */
  lemma RecencyMonotone(items: seq<Doc>, days: int, days2: int, clock: Clock)
    requires 0 < days <= days2
    ensures Subseq(RecencyFilter(items, days, clock), RecencyFilter(items, days2, clock))
  {
    var c1 := Cutoff(clock.now, days);
    var c2 := Cutoff(clock.now, days2);
    assert (days * 86400) as real <= (days2 * 86400) as real;
    assert forall d :: RecentTest(c1, clock.ts)(d) ==> RecentTest(c2, clock.ts)(d);
    FilterImplies(items, RecentTest(c1, clock.ts), RecentTest(c2, clock.ts));
  }

  // ---------------------------------------------------------------------
  // Reranking

  /** A reranker's scores for the documents' texts against the query, or None when it raises. */
  type Scorer = (seq<Doc>, string) -> Option<seq<real>>

  /** What the process can use: a GPU, sentence_transformers, and the three scorers. */
  datatype RerankEnv = RerankEnv(gpu: bool, hasSentenceTransformers: bool,
                                 cosine: Scorer, sbert: Scorer, cross: Scorer)

  /** A scorer that gives one score per document whenever it answers. */
  ghost predicate OneScorePerDoc(sc: Scorer)
  {
    forall ds, q :: sc(ds, q).Some? ==> |sc(ds, q).value| == |ds|
  }

  /** `zip(docs, scores)`: pairs up to the shorter length. */
  function Zip(docs: seq<Doc>, scores: seq<real>): (r: seq<(Doc, real)>)
    ensures |r| == MinInt(|docs|, |scores|)
    ensures forall i :: 0 <= i < |r| ==> r[i] == (docs[i], scores[i])
  {
    seq(MinInt(|docs|, |scores|), i requires 0 <= i < MinInt(|docs|, |scores|) => (docs[i], scores[i]))
  }

  function First(p: (Doc, real)): Doc { p.0 }

  /** The document apart from its score, which only the Serper reranker rewrites. */
  function Unscored(d: Doc): Doc { d.(score := 0.0) }

  function FirstUnscored(p: (Doc, real)): Doc { Unscored(p.0) }

  /** `sorted(..., key=score, reverse=True)`: higher first, ties in input order. */
  function PairDesc(): ((Doc, real), (Doc, real)) -> bool
  {
    (a: (Doc, real), b: (Doc, real)) => a.1 >= b.1
  }

  function DocDesc(): (Doc, Doc) -> bool
  {
    (a: Doc, b: Doc) => a.score >= b.score
  }

  /** `for d, s in zip(docs, scores): d["score"] = float(s)`. */
  function Rescored(docs: seq<Doc>, scores: seq<real>): (r: seq<Doc>)
    ensures |r| == |docs|
    ensures forall i :: 0 <= i < |docs| ==> r[i] == (if i < |scores| then docs[i].(score := scores[i]) else docs[i])
  {
    seq(|docs|, i requires 0 <= i < |docs| => if i < |scores| then docs[i].(score := scores[i]) else docs[i])
  }

  /**
   * Ordering by a reranker's scores, highest first. Tavily sorts (doc, score)
   * pairs and drops the scores; Serper writes each score into its document and
   * sorts the documents.
   */
  function SortByScores(v: Variant, docs: seq<Doc>, scores: seq<real>): seq<Doc>
  {
    match v
    case Tavily => Map(SortBy(Zip(docs, scores), PairDesc()), First)
    case Serper => SortBy(Rescored(docs, scores), DocDesc())
  }

  /** With one score per document, the ordering permutes the documents (up to their scores). */
  lemma SortByScoresPermutes(v: Variant, docs: seq<Doc>, scores: seq<real>)
    requires |scores| == |docs|
    ensures multiset(Map(SortByScores(v, docs, scores), Unscored)) == multiset(Map(docs, Unscored))
  {
    match v
    case Tavily =>
      var z := Zip(docs, scores);
      var sorted := SortBy(z, PairDesc());
      SortByMap(z, PairDesc(), FirstUnscored);
      assert Map(Map(sorted, First), Unscored) == Map(sorted, FirstUnscored);
      assert Map(z, FirstUnscored) == Map(docs, Unscored);
    case Serper =>
      var re := Rescored(docs, scores);
      SortByMap(re, DocDesc(), Unscored);
      assert Map(re, Unscored) == Map(docs, Unscored);
  }

  /** The Serper order: the documents' new scores never increase. */
  lemma SerperScoresDescending(docs: seq<Doc>, scores: seq<real>)
    ensures var r := SortByScores(Serper, docs, scores);
      forall i, j :: 0 <= i < j < |r| ==> r[j].score <= r[i].score
  {
    SortBySorted(Rescored(docs, scores), DocDesc());
  }

  /** The Tavily order: the pairs come out with non-increasing scores. */
  lemma TavilyScoresDescending(docs: seq<Doc>, scores: seq<real>)
    ensures var r := SortBy(Zip(docs, scores), PairDesc());
      forall i, j :: 0 <= i < j < |r| ==> r[j].1 <= r[i].1
  {
    SortBySorted(Zip(docs, scores), PairDesc());
  }

  /** `_rerank_cosine`: no documents, or a raising vectorizer, leave the list as it is. */
  function RerankCosine(v: Variant, docs: seq<Doc>, query: string, env: RerankEnv): (r: seq<Doc>)
    ensures docs == [] || env.cosine(docs, query).None? ==> r == docs
    ensures docs != [] && env.cosine(docs, query).Some? ==> r == SortByScores(v, docs, env.cosine(docs, query).value)
  {
    if docs == [] then docs
    else match env.cosine(docs, query)
      case None => docs
      case Some(s) => SortByScores(v, docs, s)
  }

  /**
   * `_rerank_sbert` and `_rerank_cross`: without sentence_transformers and a
   * GPU, or when the model raises, they fall back to the cosine reranker.
   */
  function RerankModel(v: Variant, docs: seq<Doc>, query: string, env: RerankEnv, model: Scorer): (r: seq<Doc>)
    ensures docs == [] ==> r == docs
    ensures docs != [] && !(env.hasSentenceTransformers && env.gpu) ==> r == RerankCosine(v, docs, query, env)
    ensures docs != [] && model(docs, query).None? ==> r == RerankCosine(v, docs, query, env)
  {
    if docs == [] then docs
    else if !(env.hasSentenceTransformers && env.gpu) then RerankCosine(v, docs, query, env)
    else match model(docs, query)
      case None => RerankCosine(v, docs, query, env)
      case Some(s) => SortByScores(v, docs, s)
  }

  /** `_apply_rerank`: "sbert" and "cross" become "cosine" without a GPU; any other name means cosine. */
  function ApplyRerank(v: Variant, docs: seq<Doc>, query: string, rerank: string, env: RerankEnv): (r: seq<Doc>)
    ensures !env.gpu ==> r == RerankCosine(v, docs, query, env)
    ensures rerank != "sbert" && rerank != "cross" ==> r == RerankCosine(v, docs, query, env)
    ensures env.gpu && rerank == "sbert" ==> r == RerankModel(v, docs, query, env, env.sbert)
    ensures env.gpu && rerank == "cross" ==> r == RerankModel(v, docs, query, env, env.cross)
  {
    var chosen := if (rerank == "sbert" || rerank == "cross") && !env.gpu then "cosine" else rerank;
    if chosen == "sbert" then RerankModel(v, docs, query, env, env.sbert)
    else if chosen == "cross" then RerankModel(v, docs, query, env, env.cross)
    else RerankCosine(v, docs, query, env)
  }

  lemma RerankCosinePermutes(v: Variant, docs: seq<Doc>, query: string, env: RerankEnv)
    requires OneScorePerDoc(env.cosine)
    ensures multiset(Map(RerankCosine(v, docs, query, env), Unscored)) == multiset(Map(docs, Unscored))
  {
    if docs != [] && env.cosine(docs, query).Some? {
      SortByScoresPermutes(v, docs, env.cosine(docs, query).value);
    }
  }

  lemma RerankModelPermutes(v: Variant, docs: seq<Doc>, query: string, env: RerankEnv, model: Scorer)
    requires OneScorePerDoc(env.cosine) && OneScorePerDoc(model)
    ensures multiset(Map(RerankModel(v, docs, query, env, model), Unscored)) == multiset(Map(docs, Unscored))
  {
    RerankCosinePermutes(v, docs, query, env);
    if docs != [] && env.hasSentenceTransformers && env.gpu && model(docs, query).Some? {
      SortByScoresPermutes(v, docs, model(docs, query).value);
    }
  }

  /** When every scorer gives one score per document, reranking permutes the documents up to their scores. */
  lemma ApplyRerankPermutes(v: Variant, docs: seq<Doc>, query: string, rerank: string, env: RerankEnv)
    requires OneScorePerDoc(env.cosine) && OneScorePerDoc(env.sbert) && OneScorePerDoc(env.cross)
    ensures multiset(Map(ApplyRerank(v, docs, query, rerank, env), Unscored)) == multiset(Map(docs, Unscored))
  {
    if env.gpu && rerank == "sbert" {
      RerankModelPermutes(v, docs, query, env, env.sbert);
    } else if env.gpu && rerank == "cross" {
      RerankModelPermutes(v, docs, query, env, env.cross);
    } else {
      RerankCosinePermutes(v, docs, query, env);
    }
  }

  // ---------------------------------------------------------------------
  // Final order

  /** `rank_score` in Tavily, which no step writes, so it reads as 0.0; `score` in Serper. */
  function RankOf(v: Variant): Doc -> real
  {
    match v
    case Tavily => (d: Doc) => 0.0
    case Serper => (d: Doc) => d.score
  }

  /** `_sort_by_recency_then_score`'s key: (-rank, -timestamp), compared in order. */
  function SortKey(d: Doc, rank: Doc -> real, ts: string -> real): (real, real)
  {
    (-rank(d), -ts(d.published))
  }

  predicate KeyLe(a: (real, real), b: (real, real))
  {
    a.0 < b.0 || (a.0 == b.0 && a.1 <= b.1)
  }

  function RecencyOrder(rank: Doc -> real, ts: string -> real): (Doc, Doc) -> bool
  {
    (a: Doc, b: Doc) => KeyLe(SortKey(a, rank, ts), SortKey(b, rank, ts))
  }

  lemma RecencyOrderIsTotal(rank: Doc -> real, ts: string -> real)
    ensures Total(RecencyOrder(rank, ts)) && Transitive(RecencyOrder(rank, ts))
  {
  }

  /** `_sort_by_recency_then_score`: a stable sort by the key. */
  function SortByRecency(docs: seq<Doc>, rank: Doc -> real, ts: string -> real): (r: seq<Doc>)
    ensures multiset(r) == multiset(docs)
    ensures Pairwise(r, RecencyOrder(rank, ts))
  {
    RecencyOrderIsTotal(rank, ts);
    SortBySorted(docs, RecencyOrder(rank, ts));
    SortBy(docs, RecencyOrder(rank, ts))
  }

  /** In Tavily the rank is the same for every document, so the final order is newest first. */
  lemma TavilyNewestFirst(docs: seq<Doc>, ts: string -> real)
    ensures var r := SortByRecency(docs, RankOf(Tavily), ts);
      forall i, j :: 0 <= i < j < |r| ==> ts(r[j].published) <= ts(r[i].published)
  {
    var r := SortByRecency(docs, RankOf(Tavily), ts);
    forall i, j | 0 <= i < j < |r|
      ensures ts(r[j].published) <= ts(r[i].published)
    {
      assert RecencyOrder(RankOf(Tavily), ts)(r[i], r[j]);
    }
  }

  // ---------------------------------------------------------------------
  // The shared tail of `web_search` and its output

  /**
   * The steps after the provider calls: clean, filter by recency, rerank and
   * keep `top_k`, then order by rank and recency and keep `top_k` again.
   */
  function Finish(v: Variant, combined: seq<Doc>, query: string, topK: int, recencyDays: int,
                  rerank: string, clock: Clock, env: RerankEnv): (r: seq<Doc>)
    ensures topK >= 0 ==> |r| <= topK
  {
    AfterCleaning(v, CleanSpec(combined, MinSnippet(v)), query, topK, recencyDays, rerank, clock, env)
  }

  /** The steps of `Finish` after `_clean_results`. */
  function AfterCleaning(v: Variant, cleaned: seq<Doc>, query: string, topK: int, recencyDays: int,
                         rerank: string, clock: Clock, env: RerankEnv): (r: seq<Doc>)
    ensures topK >= 0 ==> |r| <= topK
  {
    var recent := RecencyFilter(cleaned, recencyDays, clock);
    var reranked := PyTake(ApplyRerank(v, recent, query, rerank, env), topK);
    PyTake(SortByRecency(reranked, RankOf(v), clock.ts), topK)
  }

  /** The tail of `web_search`, step by step as both variants write it. */
  method FinishSteps(v: Variant, combined: seq<Doc>, query: string, topK: int, recencyDays: int,
                     rerank: string, clock: Clock, env: RerankEnv) returns (results: seq<Doc>)
    ensures results == Finish(v, combined, query, topK, recencyDays, rerank, clock, env)
  {
    var cleaned := CleanResults(combined, MinSnippet(v));
    results := ApplyRecencyFilter(cleaned, recencyDays, clock);
    results := PyTake(ApplyRerank(v, results, query, rerank, env), topK);
    results := PyTake(SortByRecency(results, RankOf(v), clock.ts), topK);
  }

  /** Cleanliness and recency do not depend on a document's score. */
  predicate Survivor(d: Doc, v: Variant, recencyDays: int, clock: Clock)
  {
    Cleaned(d, MinSnippet(v)) && (recencyDays > 0 ==> Recent(d, Cutoff(clock.now, recencyDays), clock.ts))
  }

  lemma {:induction false} SurvivorsByImage(a: seq<Doc>, b: seq<Doc>, v: Variant, recencyDays: int, clock: Clock)
    requires multiset(Map(a, Unscored)) == multiset(Map(b, Unscored))
    requires forall x :: x in b ==> Survivor(x, v, recencyDays, clock)
    ensures forall x :: x in a ==> Survivor(x, v, recencyDays, clock)
  {
    forall x | x in a
      ensures Survivor(x, v, recencyDays, clock)
    {
      var i :| 0 <= i < |a| && a[i] == x;
      assert Map(a, Unscored)[i] == Unscored(x);
      assert Unscored(x) in multiset(Map(b, Unscored));
      var j :| 0 <= j < |b| && Map(b, Unscored)[j] == Unscored(x);
      assert Survivor(b[j], v, recencyDays, clock);
    }
  }

  /** Reranking the recent cleaned documents and keeping `top_k` keeps only survivors. */
  lemma RerankedSurvivors(v: Variant, cleaned: seq<Doc>, query: string, topK: int, recencyDays: int,
                          rerank: string, clock: Clock, env: RerankEnv)
    requires OneScorePerDoc(env.cosine) && OneScorePerDoc(env.sbert) && OneScorePerDoc(env.cross)
    requires forall x :: x in cleaned ==> Cleaned(x, MinSnippet(v))
    ensures var recent := RecencyFilter(cleaned, recencyDays, clock);
      forall x :: x in PyTake(ApplyRerank(v, recent, query, rerank, env), topK) ==> Survivor(x, v, recencyDays, clock)
  {
    var recent := RecencyFilter(cleaned, recencyDays, clock);
    assert forall x :: x in recent ==> Survivor(x, v, recencyDays, clock);
    var full := ApplyRerank(v, recent, query, rerank, env);
    ApplyRerankPermutes(v, recent, query, rerank, env);
    SurvivorsByImage(full, recent, v, recencyDays, clock);
    var reranked := PyTake(full, topK);
    assert forall x :: x in reranked ==> x in full;
  }

  /** Sorting survivors by the key and keeping `top_k` gives survivors in key order. */
  lemma SortedPrefix(v: Variant, reranked: seq<Doc>, topK: int, recencyDays: int, clock: Clock)
    requires forall x :: x in reranked ==> Survivor(x, v, recencyDays, clock)
    ensures var r := PyTake(SortByRecency(reranked, RankOf(v), clock.ts), topK);
      (forall x :: x in r ==> Survivor(x, v, recencyDays, clock))
      && Pairwise(r, RecencyOrder(RankOf(v), clock.ts))
  {
    var sorted := SortByRecency(reranked, RankOf(v), clock.ts);
    assert forall x :: x in sorted ==> x in multiset(reranked);
    var r := PyTake(sorted, topK);
    assert forall x :: x in r ==> x in sorted;
    assert forall i, j :: 0 <= i < j < |r| ==> r[i] == sorted[i] && r[j] == sorted[j];
  }

  /**
   * Every document `web_search` returns passed the cleaning thresholds and,
   * with a positive window, the recency filter, and the final list is in key order.
   */
  lemma FinishSurvivors(v: Variant, combined: seq<Doc>, query: string, topK: int, recencyDays: int,
                        rerank: string, clock: Clock, env: RerankEnv)
    requires OneScorePerDoc(env.cosine) && OneScorePerDoc(env.sbert) && OneScorePerDoc(env.cross)
    ensures var r := Finish(v, combined, query, topK, recencyDays, rerank, clock, env);
      (forall x :: x in r ==> Survivor(x, v, recencyDays, clock))
      && Pairwise(r, RecencyOrder(RankOf(v), clock.ts))
  {
    var cleaned := CleanSpec(combined, MinSnippet(v));
    CleanSpecSurvivors(combined, MinSnippet(v));
    RerankedSurvivors(v, cleaned, query, topK, recencyDays, rerank, clock, env);
    var recent := RecencyFilter(cleaned, recencyDays, clock);
    SortedPrefix(v, PyTake(ApplyRerank(v, recent, query, rerank, env), topK), topK, recencyDays, clock);
  }

  /** `_build_output` without the execution time. */
  datatype SearchOutput = SearchOutput(success: bool, providerUsed: string, count: int, docs: seq<Doc>,
                                       query: string, queryUsed: string, retryCount: int, fallbackUsed: bool)

  function BuildOutput(success: bool, provider: string, docs: seq<Doc>, query: string, queryUsed: string,
                       retryCount: int, fallbackUsed: bool): (r: SearchOutput)
    ensures r.count == |r.docs| && r.docs == docs && r.success == success
  {
    SearchOutput(success, provider, |docs|, docs, query, queryUsed, retryCount, fallbackUsed)
  }

  // ---------------------------------------------------------------------
  // Query rewriting

  const Indent: string := "            "

  /** The rewrite prompt up to the middle dot of "영세·중소". */
  const RewriteLead: string :=
    "당신은 소상공인·자영업자를 돕는 마케팅 전문 검색어 생성기입니다.\n"
    + Indent + "사용자가 질문한 내용을 바탕으로, 웹 검색 품질을 높일 수 있는 한국어 검색 쿼리를 재작성하세요.\n\n"
    + Indent + "지침:\n"
    + Indent + "- 마케팅/매출/고객/전략/사례/분석/상권/리뷰/홍보 같은 키워드를 포함하여 의도를 명확히 합니다.\n"
    + Indent + "- 업종 및 지역 정보가 있으면 반영합니다.\n"
    + Indent + "- 대상: 영세"

  /** The rewrite prompt from after the middle dot up to the query. */
  const RewriteMid: string :=
    "중소 사업자\n"
    + Indent + "- 핵심 키워드 중심\n"
    + Indent + "- OR, 따옴표 등 특수 기호 사용 금지.\n"
    + Indent + "- 한국어로만, 8~15 단어, 한 줄만 출력. 추가 설명 금지.\n\n"
    + Indent + "입력:\n" + Indent

  /** The rewrite prompt after the query. */
  const RewriteTail: string := "\n\n" + Indent + "출력(검색용 재작성 쿼리 한 줄):"

  /** The rewrite prompt after `.strip()`; only the "영세·중소" line's middle dot differs between the files. */
  function RewritePrompt(query: string, dot: string): (r: string)
    ensures Contains(r, query)
  {
    ContainsInfix(RewriteLead + dot + RewriteMid, query, RewriteTail);
    RewriteLead + dot + RewriteMid + query + RewriteTail
  }

  /** `_rewrite_query_gemini`: the model's reply stripped, or the query itself when the call raises. */
  function RewriteQuery(query: string, dot: string, invoke: string -> Llm.LlmReply): (r: string)
    ensures invoke(RewritePrompt(query, dot)).LlmRaised? ==> r == query
    ensures invoke(RewritePrompt(query, dot)).Replied? ==> r == Strip(TextOr(invoke(RewritePrompt(query, dot)).content))
  {
    match invoke(RewritePrompt(query, dot))
    case Replied(content) => Strip(TextOr(content))
    case LlmRaised(_) => query
  }
}

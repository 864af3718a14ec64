/**
 * Answer post-processing (my_agent/utils/postprocess.py): text cleanup, the
 * proxy and data-date badges, the de-duplicated source list, the disclaimer
 * and the seed action plan.
 */
module Postprocess {
  import opened Common
  import opened Seqs
  import WebCommon
  import WebAugment

  /** `_safe_str`: "" for None, otherwise `str(x)`. */
  function SafeStr(v: Value): (r: string)
    ensures v.VNone? ==> r == ""
    ensures v.VStr? ==> r == v.s
  {
    if v.VNone? then "" else Str(v)
  }

  // ---------------------------------------------------------------------
  // Dates

  /** `_format_yyyymm`: "YYYY년 MM월" when the text starts with four and then two digits. */
  function FormatYyyymm(v: Value): (r: Option<string>)
    ensures var s := SafeStr(v);
      r.Some? <==> |s| >= 6 && AllDigits(s[..4]) && AllDigits(s[4..6])
    ensures var s := SafeStr(v);
      r.Some? ==> (|r.value| == 9 && r.value[..4] == s[..4] && r.value[6..8] == s[4..6]
                   && r.value[4..6] == "년 " && r.value[8] == '월')
  {
    var s := SafeStr(v);
    if |s| >= 6 && AllDigits(s[..4]) && AllDigits(s[4..6]) then Some(s[..4] + "년 " + s[4..6] + "월")
    else None
  }

  // ---------------------------------------------------------------------
  // URLs

  /** `scheme_chars` of urllib.parse. */
  predicate SchemeChar(c: char)
  {
    ('a' <= c <= 'z') || ('A' <= c <= 'Z') || IsDigit(c) || c == '+' || c == '-' || c == '.'
  }

  /** Leading C0 controls and spaces, which `urlsplit` strips first. */
  function LStripControl(s: string): (r: string)
    ensures |r| <= |s| && r == s[|s| - |r|..]
    ensures r == [] || r[0] > ' '
  {
    if s != [] && s[0] <= ' ' then LStripControl(s[1..]) else s
  }

  /** Tabs, carriage returns and newlines, which `urlsplit` removes everywhere. */
  function RemoveUnsafe(s: string): (r: string)
    ensures forall i :: 0 <= i < |r| ==> r[i] != '\t' && r[i] != '\r' && r[i] != '\n'
  {
    if s == [] then []
    else (if s[0] == '\t' || s[0] == '\r' || s[0] == '\n' then [] else [s[0]]) + RemoveUnsafe(s[1..])
  }

  /** The text after a leading scheme (`http:`, ...), or the whole text when there is none. */
  function AfterScheme(u: string): (r: string)
    ensures |r| <= |u| && r == u[|u| - |r|..]
  {
    var i := IndexOfChar(u, ':');
    if 0 < i < |u| && 'a' <= LowerChar(u[0]) <= 'z' && (forall j :: 0 <= j < i ==> SchemeChar(u[j])) then u[i + 1..]
    else u
  }

  /** The first index at or after `from` holding '/', '?' or '#', or the length. */
  function NetlocEnd(u: string, from: nat): (r: nat)
    requires from <= |u|
    ensures from <= r <= |u|
    ensures forall i :: from <= i < r ==> u[i] != '/' && u[i] != '?' && u[i] != '#'
    decreases |u| - from
  {
    if from == |u| || u[from] == '/' || u[from] == '?' || u[from] == '#' then from else NetlocEnd(u, from + 1)
  }

  /** `urlparse(url).netloc`: what follows "//" after the scheme, up to '/', '?' or '#'. */
  function Netloc(url: string): (r: string)
    ensures forall i :: 0 <= i < |r| ==> r[i] != '/' && r[i] != '?' && r[i] != '#'
  {
    var u := AfterScheme(RemoveUnsafe(LStripControl(url)));
    if |u| >= 2 && u[..2] == "//" then u[2..NetlocEnd(u, 2)] else ""
  }

  // ---------------------------------------------------------------------
  // De-duplicating the sources

  /** The key a source is de-duplicated by: lowercased title and lowercased domain (or source). */
  function KeyOf(s: Record): (string, string)
  {
    var title := Strip(SafeStr(GetOr(s, "title", VStr(""))));
    var url := Strip(SafeStr(GetOr(s, "url", VStr(""))));
    var dom := if url != "" then Netloc(url) else Strip(SafeStr(GetOr(s, "source", VStr(""))));
    (Lower(title), Lower(dom))
  }

  /** The keys of a list of items. */
  function Keys<T, K(==)>(r: seq<T>, key: T -> K): set<K>
  {
    if r == [] then {} else {key(r[0])} + Keys(r[1..], key)
  }

  /**
   * `_dedup_sources` from a point in the scan: `seen` holds the keys kept so far
   * and `count` the number of items kept; the scan stops once `limit` are kept.
   */
  function Dedup<T, K(==)>(xs: seq<T>, key: T -> K, limit: int, seen: set<K>, count: nat): seq<T>
  {
    if xs == [] then []
    else if key(xs[0]) in seen then Dedup(xs[1..], key, limit, seen, count)
    else if count + 1 >= limit then [xs[0]]
    else [xs[0]] + Dedup(xs[1..], key, limit, seen + {key(xs[0])}, count + 1)
  }

  lemma DedupAt<T, K>(xs: seq<T>, i: nat, key: T -> K, limit: int, seen: set<K>, count: nat)
    requires i < |xs|
    ensures Dedup(xs[i..], key, limit, seen, count)
      == if key(xs[i]) in seen then Dedup(xs[i + 1..], key, limit, seen, count)
         else if count + 1 >= limit then [xs[i]]
         else [xs[i]] + Dedup(xs[i + 1..], key, limit, seen + {key(xs[i])}, count + 1)
  {
    assert xs[i..][0] == xs[i];
    assert xs[i..][1..] == xs[i + 1..];
  }

  /** A seen key is skipped: the scan goes on with the same state. */
  lemma DedupSkip<T, K>(xs: seq<T>, i: nat, key: T -> K, limit: int, seen: set<K>, out: seq<T>, total: seq<T>)
    requires i < |xs| && key(xs[i]) in seen
    requires out + Dedup(xs[i..], key, limit, seen, |out|) == total
    ensures out + Dedup(xs[i + 1..], key, limit, seen, |out|) == total
  {
    DedupAt(xs, i, key, limit, seen, |out|);
  }

  /** A new key that reaches the limit is kept and ends the scan. */
  lemma DedupStop<T, K>(xs: seq<T>, i: nat, key: T -> K, limit: int, seen: set<K>, out: seq<T>, total: seq<T>)
    requires i < |xs| && key(xs[i]) !in seen && |out| + 1 >= limit
    requires out + Dedup(xs[i..], key, limit, seen, |out|) == total
    ensures out + [xs[i]] == total
  {
    DedupAt(xs, i, key, limit, seen, |out|);
  }

  /** A new key below the limit is kept and remembered. */
  lemma DedupKeep<T, K>(xs: seq<T>, i: nat, key: T -> K, limit: int, seen: set<K>, out: seq<T>, total: seq<T>)
    requires i < |xs| && key(xs[i]) !in seen && |out| + 1 < limit
    requires out + Dedup(xs[i..], key, limit, seen, |out|) == total
    ensures (out + [xs[i]]) + Dedup(xs[i + 1..], key, limit, seen + {key(xs[i])}, |out| + 1) == total
  {
    DedupAt(xs, i, key, limit, seen, |out|);
    var rest := Dedup(xs[i + 1..], key, limit, seen + {key(xs[i])}, |out| + 1);
    assert (out + [xs[i]]) + rest == out + ([xs[i]] + rest);
  }

  /** The scan of `_dedup_sources` for any key: keep an item unless its key was seen, stop at `limit`. */
  method DedupBy<T, K(==)>(xs: seq<T>, key: T -> K, limit: int) returns (out: seq<T>)
    ensures out == Dedup(xs, key, limit, {}, 0)
  {
    ghost var total := Dedup(xs, key, limit, {}, 0);
    var seen: set<K> := {};
    out := [];
    var i := 0;
    while i < |xs|
      invariant 0 <= i <= |xs|
      invariant out + Dedup(xs[i..], key, limit, seen, |out|) == total
    {
      var x := xs[i];
      var k := key(x);
      if k in seen {
        DedupSkip(xs, i, key, limit, seen, out, total);
        i := i + 1;
        continue;
      }
      if |out| + 1 >= limit {
        DedupStop(xs, i, key, limit, seen, out, total);
        out := out + [x];
        return;
      }
      DedupKeep(xs, i, key, limit, seen, out, total);
      seen := seen + {k};
      out := out + [x];
      i := i + 1;
    }
    assert xs[i..] == [];
  }

  /** `_dedup_sources`: the first source of each (title, domain) key, in order, at most `limit` of them. */
  method DedupSources(snips: seq<Record>, limit: int) returns (out: seq<Record>)
    ensures out == Dedup(snips, KeyOf, limit, {}, 0)
  {
    out := DedupBy(snips, KeyOf, limit);
  }

  /** The kept items are a subsequence of the input, in the input's order. */
  lemma {:induction false} DedupSubseq<T, K>(xs: seq<T>, key: T -> K, limit: int, seen: set<K>, count: nat)
    ensures Subseq(Dedup(xs, key, limit, seen, count), xs)
    decreases |xs|
  {
    if xs != [] {
      var r := Dedup(xs, key, limit, seen, count);
      var k := key(xs[0]);
      if k in seen {
        DedupSubseq(xs[1..], key, limit, seen, count);
        SubseqSkip(r, xs);
      } else if count + 1 >= limit {
        assert r[1..] == [];
      } else {
        DedupSubseq(xs[1..], key, limit, seen + {k}, count + 1);
        assert r[1..] == Dedup(xs[1..], key, limit, seen + {k}, count + 1);
      }
    }
  }

  /** At most `limit - count` items are kept (one when the limit is already reached). */
  lemma {:induction false} DedupBounded<T, K>(xs: seq<T>, key: T -> K, limit: int, seen: set<K>, count: nat)
    ensures count < limit ==> count + |Dedup(xs, key, limit, seen, count)| <= limit
    ensures limit <= count ==> |Dedup(xs, key, limit, seen, count)| <= 1
    decreases |xs|
  {
    if xs != [] {
      var k := key(xs[0]);
      if k in seen {
        DedupBounded(xs[1..], key, limit, seen, count);
      } else if count + 1 < limit {
        DedupBounded(xs[1..], key, limit, seen + {k}, count + 1);
      }
    }
  }

  /** Kept items have distinct keys, none of them already seen. */
  lemma {:induction false} DedupDistinct<T, K>(xs: seq<T>, key: T -> K, limit: int, seen: set<K>, count: nat)
    ensures forall i :: 0 <= i < |Dedup(xs, key, limit, seen, count)| ==> key(Dedup(xs, key, limit, seen, count)[i]) !in seen
    ensures forall i, j :: 0 <= i < j < |Dedup(xs, key, limit, seen, count)| ==>
      key(Dedup(xs, key, limit, seen, count)[i]) != key(Dedup(xs, key, limit, seen, count)[j])
    decreases |xs|
  {
    if xs != [] {
      var k := key(xs[0]);
      var r := Dedup(xs, key, limit, seen, count);
      if k in seen {
        DedupDistinct(xs[1..], key, limit, seen, count);
        assert r == Dedup(xs[1..], key, limit, seen, count);
      } else if count + 1 < limit {
        var rest := Dedup(xs[1..], key, limit, seen + {k}, count + 1);
        DedupDistinct(xs[1..], key, limit, seen + {k}, count + 1);
        assert r == [xs[0]] + rest;
        forall i | 0 < i < |r|
          ensures key(r[i]) !in seen && key(r[i]) != k
        {
          assert r[i] == rest[i - 1];
        }
      }
    }
  }

  /** When the limit was not reached, every input item's key was seen or kept: only duplicates are dropped. */
  lemma {:induction false} DedupComplete<T, K>(xs: seq<T>, key: T -> K, limit: int, seen: set<K>, count: nat)
    requires count + |Dedup(xs, key, limit, seen, count)| < limit
    ensures forall j :: 0 <= j < |xs| ==> key(xs[j]) in seen + Keys(Dedup(xs, key, limit, seen, count), key)
    decreases |xs|
  {
    if xs != [] {
      var k := key(xs[0]);
      var r := Dedup(xs, key, limit, seen, count);
      if k in seen {
        DedupComplete(xs[1..], key, limit, seen, count);
        forall j | 0 < j < |xs|
          ensures key(xs[j]) in seen + Keys(r, key)
        {
          assert xs[j] == xs[1..][j - 1];
        }
      } else {
        var rest := Dedup(xs[1..], key, limit, seen + {k}, count + 1);
        assert r == [xs[0]] + rest;
        assert r[1..] == rest;
        assert Keys(r, key) == {k} + Keys(rest, key);
        DedupComplete(xs[1..], key, limit, seen + {k}, count + 1);
        forall j | 0 <= j < |xs|
          ensures key(xs[j]) in seen + Keys(r, key)
        {
          if j > 0 {
            assert xs[j] == xs[1..][j - 1];
          }
        }
      }
    }
  }

  /** A non-empty input always keeps its first item. */
  lemma DedupNonEmpty<T, K>(xs: seq<T>, key: T -> K, limit: int)
    requires xs != []
    ensures Dedup(xs, key, limit, {}, 0) != [] && Dedup(xs, key, limit, {}, 0)[0] == xs[0]
  {
  }

  // ---------------------------------------------------------------------
  // The sources block

  /** The block's first line, after a blank line and a rule. */
  const SourcesHeader: string := "\n\n---\n\U{1F517} 참고 출처"

  /** The search line, present when the meta dict is non-empty and names a query or a provider. */
  function MetaLines(meta: Option<Record>): (r: seq<string>)
    ensures |r| <= 1
    ensures !Present(meta) ==> r == []
  {
    if !Present(meta) then []
    else
      var q := SafeStr(GetOr(meta.value, "query", VStr("")));
      var prov := SafeStr(GetOr(meta.value, "provider_used", VStr("")));
      if q != "" || prov != "" then
        ["*검색 정보: provider=" + (if prov != "" then prov else "auto") + ", query=\"" + q + "\"*"]
      else []
  }

  /** The prefix of a snippet line. */
  const SnippetMark: string := "  └ "

  /** The head line of a source: title and source, then the date and the URL when present. */
  function HeadLine(title: string, src: string, date: string, url: string): string
  {
    "- " + title + " · " + src + (if date != "" then " · " + date else "") + (if url != "" then " · " + url else "")
  }

  /** The snippet line of a source: whitespace runs collapsed, cut to 220 characters. */
  function SnippetLine(snip: string): string
  {
    SnippetMark + Take(WebCommon.CollapseSpaces(snip), 220)
  }

  /** The head line of a source; a missing source falls back to the URL's host. */
  function SourceHead(s: Record): string
  {
    var url := SafeStr(GetOr(s, "url", VStr("")));
    HeadLine(SafeStr(GetOr(s, "title", VStr("(제목 없음)"))),
             SafeStr(GetOr(s, "source", VStr(if url != "" then Netloc(url) else ""))),
             SafeStr(GetOr(s, "published_at", VStr(""))), url)
  }

  /** The lines for one source: its head line, then its snippet line when it has a snippet. */
  function SourceLines(s: Record): seq<string>
  {
    var snip := Strip(SafeStr(GetOr(s, "snippet", VStr(""))));
    [SourceHead(s)] + (if snip != "" then [SnippetLine(snip)] else [])
  }

  lemma StartsWithExtend(s: string, p: string, q: string)
    requires StartsWith(s, p)
    ensures StartsWith(s + q, p)
  {
    assert (s + q)[..|p|] == s[..|p|];
  }

  lemma HeadLineStarts(title: string, src: string, date: string, url: string)
    ensures StartsWith(HeadLine(title, src, date, url), "- ")
  {
    var p := "- ";
    assert StartsWith(p, p);
    StartsWithExtend(p, p, title);
    StartsWithExtend(p + title, p, " · ");
    StartsWithExtend(p + title + " · ", p, src);
    var x := if date != "" then " · " + date else "";
    StartsWithExtend(p + title + " · " + src, p, x);
    StartsWithExtend(p + title + " · " + src + x, p, if url != "" then " · " + url else "");
  }

  /** One or two lines per source: a "- " head line and at most one snippet line of bounded length. */
  lemma SourceLinesShape(s: Record)
    ensures 1 <= |SourceLines(s)| <= 2
    ensures StartsWith(SourceLines(s)[0], "- ")
    ensures |SourceLines(s)| == 2 ==>
      StartsWith(SourceLines(s)[1], SnippetMark) && |SourceLines(s)[1]| <= |SnippetMark| + 220
  {
    var url := SafeStr(GetOr(s, "url", VStr("")));
    HeadLineStarts(SafeStr(GetOr(s, "title", VStr("(제목 없음)"))),
                   SafeStr(GetOr(s, "source", VStr(if url != "" then Netloc(url) else ""))),
                   SafeStr(GetOr(s, "published_at", VStr(""))), url);
    var snip := Strip(SafeStr(GetOr(s, "snippet", VStr(""))));
    SnippetLineShape(snip);
  }

  lemma SnippetLineShape(snip: string)
    ensures StartsWith(SnippetLine(snip), SnippetMark) && |SnippetLine(snip)| <= |SnippetMark| + 220
  {
    var t := Take(WebCommon.CollapseSpaces(snip), 220);
    assert (SnippetMark + t)[..|SnippetMark|] == SnippetMark;
  }

  /** `_build_sources_block`, specified. */
  function SourcesBlock(snips: seq<Record>, meta: Option<Record>): string
  {
    var kept := Dedup(snips, KeyOf, 3, {}, 0);
    if kept == [] then "" else Join([SourcesHeader] + MetaLines(meta) + FlatMap(kept, SourceLines), "\n")
  }

  /** The head line built as `_build_sources_block` builds it: the date, then the URL, appended when present. */
  method BuildHead(title: string, src: string, date: string, url: string) returns (head: string)
    ensures head == HeadLine(title, src, date, url)
  {
    head := "- " + title + " · " + src;
    if date != "" {
      head := head + (" · " + date);
    }
    if url != "" {
      head := head + (" · " + url);
    }
  }

  /** The loop body of `_build_sources_block`: one source's head line, then its snippet line. */
  method SourceEntry(s: Record) returns (entry: seq<string>)
    ensures entry == SourceLines(s)
  {
    var title := SafeStr(GetOr(s, "title", VStr("(제목 없음)")));
    var url := SafeStr(GetOr(s, "url", VStr("")));
    var src := SafeStr(GetOr(s, "source", VStr(if url != "" then Netloc(url) else "")));
    var date := SafeStr(GetOr(s, "published_at", VStr("")));
    var head := BuildHead(title, src, date, url);
    var snip := Strip(SafeStr(GetOr(s, "snippet", VStr(""))));
    entry := [head];
    if snip != "" {
      entry := entry + [SnippetLine(snip)];
    }
  }

  /** The lines of `_build_sources_block` for the kept sources: header, search line, then each source's lines. */
  method SourceListing(kept: seq<Record>, meta: Option<Record>) returns (lines: seq<string>)
    ensures lines == [SourcesHeader] + MetaLines(meta) + FlatMap(kept, SourceLines)
  {
    lines := [SourcesHeader] + MetaLines(meta);
    ghost var top := lines;
    for i := 0 to |kept|
      invariant lines == top + FlatMap(kept[..i], SourceLines)
    {
      var entry := SourceEntry(kept[i]);
      FlatMapPrefix(kept, i, SourceLines, top);
      lines := lines + entry;
    }
    TakeAll(kept);
  }

  /** `_build_sources_block`. */
  method BuildSourcesBlock(snips: seq<Record>, meta: Option<Record>) returns (block: string)
    ensures block == SourcesBlock(snips, meta)
  {
    var kept := DedupSources(snips, 3);
    if kept == [] {
      return "";
    }
    var lines := SourceListing(kept, meta);
    block := Join(lines, "\n");
  }

  /**
   * The block is empty exactly when there are no snippets; otherwise it starts
   * with the header and lists between one and three de-duplicated sources.
   */
  lemma SourcesBlockShape(snips: seq<Record>, meta: Option<Record>)
    ensures SourcesBlock(snips, meta) == "" <==> snips == []
    ensures snips != [] ==>
      && StartsWith(SourcesBlock(snips, meta), SourcesHeader)
      && 1 <= |Dedup(snips, KeyOf, 3, {}, 0)| <= 3
  {
    if snips != [] {
      DedupNonEmpty(snips, KeyOf, 3);
      DedupBounded(snips, KeyOf, 3, {}, 0);
      var lines := [SourcesHeader] + MetaLines(meta) + FlatMap(Dedup(snips, KeyOf, 3, {}, 0), SourceLines);
      JoinStartsWith(lines, "\n");
    }
  }

  // ---------------------------------------------------------------------
  // Text cleanup

  /**
   * Each maximal run of `c` cut to at most `m` characters, `run` being the
   * length of the run of `c` just before `s`: `re.sub("c{m+1,}", c * m, s)`.
   */
  function CapRuns(s: string, c: char, m: nat, run: nat): string
    decreases |s|
  {
    if s == [] then []
    else if s[0] == c then (if run < m then [c] else []) + CapRuns(s[1..], c, m, run + 1)
    else [s[0]] + CapRuns(s[1..], c, m, 0)
  }

  /** No run of `c` is longer than `m`, counting `run` characters of `c` just before `s`. */
  predicate RunsAtMost(s: string, c: char, m: nat, run: nat)
    decreases |s|
  {
    if s == [] then true
    else if s[0] == c then run < m && RunsAtMost(s[1..], c, m, run + 1)
    else RunsAtMost(s[1..], c, m, 0)
  }

  /** After capping, no run of `c` is longer than `m`. */
  lemma {:induction false} CapRunsCapped(s: string, c: char, m: nat, run: nat)
    ensures RunsAtMost(CapRuns(s, c, m, run), c, m, if run < m then run else m)
    decreases |s|
  {
    if s != [] {
      var next := if s[0] == c then run + 1 else 0;
      CapRunsCapped(s[1..], c, m, next);
      var rest := CapRuns(s[1..], c, m, next);
      if s[0] != c {
        assert CapRuns(s, c, m, run) == [s[0]] + rest;
        assert ([s[0]] + rest)[1..] == rest;
      } else if run < m {
        assert CapRuns(s, c, m, run) == [c] + rest;
        assert ([c] + rest)[1..] == rest;
      } else {
        assert CapRuns(s, c, m, run) == rest;
      }
    }
  }

  /** Capping text whose runs are already short changes nothing. */
  lemma {:induction false} CapRunsFixpoint(s: string, c: char, m: nat, run: nat)
    requires RunsAtMost(s, c, m, run)
    ensures CapRuns(s, c, m, run) == s
    decreases |s|
  {
    if s != [] {
      CapRunsFixpoint(s[1..], c, m, if s[0] == c then run + 1 else 0);
    }
  }

  lemma {:induction false} RunsAtMostMono(s: string, c: char, m: nat, p: nat, q: nat)
    requires q <= p && RunsAtMost(s, c, m, p)
    ensures RunsAtMost(s, c, m, q)
    decreases |s|
  {
    if s != [] && s[0] == c {
      RunsAtMostMono(s[1..], c, m, p + 1, q + 1);
    }
  }

  lemma {:induction false} RunsAtMostPrefix(s: string, c: char, m: nat, run: nat, k: nat)
    requires k <= |s| && RunsAtMost(s, c, m, run)
    ensures RunsAtMost(s[..k], c, m, run)
    decreases k
  {
    if k > 0 {
      RunsAtMostPrefix(s[1..], c, m, if s[0] == c then run + 1 else 0, k - 1);
      assert s[..k][1..] == s[1..][..k - 1];
    }
  }

  lemma {:induction false} RunsAtMostSuffix(s: string, c: char, m: nat, k: nat)
    requires k <= |s| && RunsAtMost(s, c, m, 0)
    ensures RunsAtMost(s[k..], c, m, 0)
    decreases k
  {
    if k > 0 {
      if s[0] == c {
        RunsAtMostMono(s[1..], c, m, 1, 0);
      }
      RunsAtMostSuffix(s[1..], c, m, k - 1);
      assert s[1..][k - 1..] == s[k..];
    }
  }

  /** Stripping keeps runs short. */
  lemma RunsAtMostStrip(s: string, c: char, m: nat)
    requires RunsAtMost(s, c, m, 0)
    ensures RunsAtMost(Strip(s), c, m, 0)
  {
    var l := StripLeft(s);
    RunsAtMostSuffix(s, c, m, |s| - |l|);
    RunsAtMostPrefix(l, c, m, 0, |StripRight(l)|);
  }

  /** Capping runs of `c` (keeping at least one) does not lengthen runs of another character. */
  lemma {:induction false} CapRunsOther(s: string, c: char, m: nat, pc: nat, d: char, n: nat, pd: nat)
    requires d != c && m >= 1 && (pc > 0 ==> pd == 0)
    requires RunsAtMost(s, d, n, pd)
    ensures RunsAtMost(CapRuns(s, c, m, pc), d, n, pd)
    decreases |s|
  {
    if s != [] {
      if s[0] == c {
        assert RunsAtMost(s[1..], d, n, 0);
        CapRunsOther(s[1..], c, m, pc + 1, d, n, 0);
        var rest := CapRuns(s[1..], c, m, pc + 1);
        if pc < m {
          assert CapRuns(s, c, m, pc) == [c] + rest;
          assert ([c] + rest)[1..] == rest;
        } else {
          assert CapRuns(s, c, m, pc) == rest;
        }
      } else {
        CapRunsOther(s[1..], c, m, 0, d, n, if s[0] == d then pd + 1 else 0);
        var rest := CapRuns(s[1..], c, m, 0);
        assert CapRuns(s, c, m, pc) == [s[0]] + rest;
        assert ([s[0]] + rest)[1..] == rest;
      }
    }
  }

  /** Capping empties a text only when it is all `c`. */
  lemma {:induction false} CapRunsEmpty(s: string, c: char, m: nat, run: nat)
    requires CapRuns(s, c, m, run) == []
    ensures forall i :: 0 <= i < |s| ==> s[i] == c
    decreases |s|
  {
    if s != [] {
      CapRunsEmpty(s[1..], c, m, run + 1);
      forall i | 0 < i < |s|
        ensures s[i] == c
      {
        assert s[i] == s[1..][i - 1];
      }
    }
  }

  /** With at least one `c` kept per run, capping keeps the last character. */
  lemma {:induction false} CapRunsLast(s: string, c: char, m: nat, run: nat)
    requires m >= 1 && s != []
    ensures var r := CapRuns(s, c, m, run);
      r == [] || r[|r| - 1] == s[|s| - 1]
    decreases |s|
  {
    var r := CapRuns(s, c, m, run);
    var next := if s[0] == c then run + 1 else 0;
    var rest := CapRuns(s[1..], c, m, next);
    if |s| == 1 {
      assert rest == [];
    } else {
      CapRunsLast(s[1..], c, m, next);
      assert s[1..][|s| - 2] == s[|s| - 1];
      if s[0] != c {
        assert r == [s[0]] + rest;
        assert rest == [if s[1] == c then c else s[1]] + CapRuns(s[2..], c, m, if s[1] == c then 1 else 0) by {
          assert s[1..][0] == s[1] && s[1..][1..] == s[2..];
        }
      } else if rest == [] {
        CapRunsEmpty(s[1..], c, m, next);
      } else {
        assert r == (if run < m then [c] else []) + rest;
      }
    }
  }

  /** Capping runs of a non-space character keeps text trimmed. */
  lemma CapRunsTrimmed(s: string, c: char, m: nat)
    requires m >= 1 && !IsSpace(c) && Trimmed(s)
    ensures Trimmed(CapRuns(s, c, m, 0))
  {
    if s != [] {
      var r := CapRuns(s, c, m, 0);
      assert r[0] == s[0];
      CapRunsLast(s, c, m, 0);
    }
  }

  /** `clean_response`: newline runs cut to two, stripped, runs of '#' cut to three. */
  function CleanResponse(response: string): string
  {
    CapRuns(Strip(CapRuns(response, '\n', 2, 0)), '#', 3, 0)
  }

  /** The cleaned text has no three newlines in a row, no four '#' in a row, and no surrounding whitespace. */
  lemma CleanResponseShape(response: string)
    ensures var r := CleanResponse(response);
      RunsAtMost(r, '\n', 2, 0) && RunsAtMost(r, '#', 3, 0) && Trimmed(r)
  {
    var t := Strip(CapRuns(response, '\n', 2, 0));
    CapRunsCapped(response, '\n', 2, 0);
    RunsAtMostStrip(CapRuns(response, '\n', 2, 0), '\n', 2);
    CapRunsOther(t, '#', 3, 0, '\n', 2, 0);
    CapRunsCapped(t, '#', 3, 0);
    CapRunsTrimmed(t, '#', 3);
  }

  /** Cleaning is idempotent. */
  lemma CleanResponseIdempotent(response: string)
    ensures CleanResponse(CleanResponse(response)) == CleanResponse(response)
  {
    var r := CleanResponse(response);
    CleanResponseShape(response);
    CapRunsFixpoint(r, '\n', 2, 0);
    StripOfStripped(r);
    CapRunsFixpoint(r, '#', 3, 0);
  }

  // ---------------------------------------------------------------------
  // Badges and disclaimer

  const ProxyBadge: string := "\U{1F4CA} [프록시 기반 추정]\n이 분석은 동일 업종/지역의 평균 데이터를 기반으로 추정되었습니다.\n\n"

  /** `add_proxy_badge`: the badge before the text when the flag is truthy. */
  function AddProxyBadge(response: string, isProxy: Value): (r: string)
    ensures !Truthy(isProxy) ==> r == response
    ensures Truthy(isProxy) ==> StartsWith(r, ProxyBadge) && r[|ProxyBadge|..] == response
  {
    if Truthy(isProxy) then ProxyBadge + response else response
  }

  /** `add_data_quality_badge`: the data month appended when the card's `yyyymm` formats. */
  function AddDataQualityBadge(response: string, card: Record): (r: string)
    ensures var msg := FormatYyyymm(GetOr(card, "yyyymm", VStr("")));
      && (msg.None? ==> r == response)
      && (msg.Some? ==> StartsWith(r, response) && EndsWith(r, msg.value))
  {
    var msg := FormatYyyymm(GetOr(card, "yyyymm", VStr("")));
    if msg.Some? && msg.value != "" then response + "\n\n\U{1F4C5} **기준 데이터**: " + msg.value else response
  }

  const Disclaimer: string := "\n---\n\U{1F4A1} **안내사항**\n- 본 분석은 신한카드 거래 데이터를 기반으로 한 통계적 추정입니다.\n- 실제 실행 시 가맹점 상황에 맞게 조정이 필요합니다.\n- 마케팅 효과는 실행 방법에 따라 달라질 수 있습니다.\n"

  /** `add_disclaimer`: the text, then the disclaimer (the card is not read). */
  function AddDisclaimer(response: string, card: Record): (r: string)
    ensures StartsWith(r, response) && EndsWith(r, Disclaimer) && |r| == |response| + |Disclaimer|
  {
    response + Disclaimer
  }

  // ---------------------------------------------------------------------
  // The action seed

  const RetentionSignal: string := "RETENTION_ALERT"
  const ChannelSignal: string := "CHANNEL_MIX_ALERT"

  /** The keys of every action. */
  const ActionKeys: set<string> := {"priority", "category", "title", "description", "why", "expected_impact", "difficulty"}

  function Action(priority: int, category: string, title: string, description: string, why: string,
                  impact: string): (r: Record)
    ensures r.Keys == ActionKeys
    ensures r["priority"] == VInt(priority) && r["category"] == VStr(category)
  {
    map["priority" := VInt(priority), "category" := VStr(category), "title" := VStr(title),
        "description" := VStr(description), "why" := VStr(why), "expected_impact" := VStr(impact),
        "difficulty" := VStr("중")]
  }

  function RetentionAction(priority: int, card: Record, pct: Value -> string): Record
  {
    Action(priority, "retention", "재방문 고객 확보 프로그램", "스탬프/쿠폰 프로그램 도입",
           "현재 재방문율 " + pct(GetOr(card, "repeat_rate", VInt(0))) + "로 업종 평균 대비 낮음", "재방문율 5~10%p 향상")
  }

  function ChannelAction(priority: int, card: Record, pct: Value -> string): Record
  {
    Action(priority, "channel", "배달 의존도 감소 전략", "매장 내 식사 프로모션 강화",
           "배달 비중 " + pct(GetOr(card, "delivery_share", VInt(0))) + "로 높아 수익성 저하", "마진율 3~5%p 개선")
  }

  const GeneralAction: Record := Action(1, "general", "종합 마케팅 진단", "현황 분석 및 맞춤 전략 수립",
                                        "체계적인 마케팅 전략 필요", "매출 5~10% 향상")

  /** `generate_action_seed`, specified; `pct` is the percent formatter `fmt_pct`. */
  function ActionSeed(card: Record, signals: seq<string>, pct: Value -> string): seq<Record>
  {
    var retention := if RetentionSignal in signals then [RetentionAction(1, card, pct)] else [];
    var channel := if ChannelSignal in signals then [ChannelAction(|retention| + 1, card, pct)] else [];
    var actions := retention + channel;
    TakeSeq(if |actions| == 0 then [GeneralAction] else actions, 5)
  }

  /** `generate_action_seed`. */
  method GenerateActionSeed(card: Record, signals: seq<string>, intent: string, pct: Value -> string)
    returns (actions: seq<Record>)
    ensures actions == ActionSeed(card, signals, pct)
  {
    actions := [];
    var priority := 1;
    if RetentionSignal in signals {
      actions := actions + [RetentionAction(priority, card, pct)];
      priority := priority + 1;
    }
    if ChannelSignal in signals {
      actions := actions + [ChannelAction(priority, card, pct)];
      priority := priority + 1;
    }
    if |actions| == 0 {
      actions := actions + [GeneralAction];
    }
    actions := TakeSeq(actions, 5);
    ActionSeedCases(card, signals, pct);
  }

  /** `ActionSeed` written out case by case. */
  lemma ActionSeedCases(card: Record, signals: seq<string>, pct: Value -> string)
    ensures ActionSeed(card, signals, pct)
      == if RetentionSignal in signals && ChannelSignal in signals then [RetentionAction(1, card, pct), ChannelAction(2, card, pct)]
         else if RetentionSignal in signals then [RetentionAction(1, card, pct)]
         else if ChannelSignal in signals then [ChannelAction(1, card, pct)]
         else [GeneralAction]
  {
  }

  /**
   * One to five actions numbered 1, 2, ... in order; retention before channel;
   * the general action exactly when neither alert is raised.
   */
  lemma ActionSeedShape(card: Record, signals: seq<string>, pct: Value -> string)
    ensures var r := ActionSeed(card, signals, pct);
      && 1 <= |r| <= 5
      && (forall i :: 0 <= i < |r| ==> r[i].Keys == ActionKeys && r[i]["priority"] == VInt(i + 1))
      && ((exists i :: 0 <= i < |r| && r[i]["category"] == VStr("general"))
          <==> RetentionSignal !in signals && ChannelSignal !in signals)
      && (RetentionSignal in signals ==> r[0]["category"] == VStr("retention"))
      && (ChannelSignal in signals ==> r[|r| - 1]["category"] == VStr("channel"))
  {
    var r := ActionSeed(card, signals, pct);
    CategoriesDistinct();
    ActionSeedCases(card, signals, pct);
    if RetentionSignal !in signals && ChannelSignal !in signals {
      assert r[0]["category"] == VStr("general");
    }
  }

  lemma CategoriesDistinct()
    ensures VStr("general") != VStr("retention") && VStr("general") != VStr("channel")
  {
    assert "general"[0] != "retention"[0] && "general"[0] != "channel"[0];
  }

  // ---------------------------------------------------------------------
  // The whole post-processing

  /** The text before the sources: cleaned, with the proxy badge and the data month. */
  function BaseText(raw: string, card: Record): string
  {
    AddDataQualityBadge(AddProxyBadge(CleanResponse(raw), GetOr(card, "proxy", VBool(false))), card)
  }

  /** `postprocess_response`'s text, specified. */
  function ResponseText(raw: string, card: Record, webSnippets: Option<seq<Record>>, webMeta: Option<Record>): string
  {
    var text := BaseText(raw, card);
    var text := if webSnippets.Some? && webSnippets.value != [] then text + SourcesBlock(webSnippets.value, webMeta) else text;
    AddDisclaimer(text, card)
  }

  /** `postprocess_response`: the final text and the action seed. */
  method PostprocessResponse(raw: string, card: Record, signals: seq<string>, intent: string,
                             webSnippets: Option<seq<Record>>, webMeta: Option<Record>, pct: Value -> string)
    returns (text: string, actions: seq<Record>)
    ensures text == ResponseText(raw, card, webSnippets, webMeta)
    ensures actions == ActionSeed(card, signals, pct)
  {
    text := CleanResponse(raw);
    text := AddProxyBadge(text, GetOr(card, "proxy", VBool(false)));
    text := AddDataQualityBadge(text, card);
    if webSnippets.Some? && webSnippets.value != [] {
      var block := BuildSourcesBlock(webSnippets.value, webMeta);
      text := text + block;
    }
    text := AddDisclaimer(text, card);
    actions := GenerateActionSeed(card, signals, intent, pct);
  }

  /**
   * The text always ends with the disclaimer; the sources block is there exactly
   * when snippets are given, and then it starts right after the base text.
   */
  lemma ResponseTextShape(raw: string, card: Record, webSnippets: Option<seq<Record>>, webMeta: Option<Record>)
    ensures EndsWith(ResponseText(raw, card, webSnippets, webMeta), Disclaimer)
    ensures webSnippets.None? || webSnippets.value == [] ==>
      ResponseText(raw, card, webSnippets, webMeta) == BaseText(raw, card) + Disclaimer
    ensures webSnippets.Some? && webSnippets.value != [] ==>
      var block := SourcesBlock(webSnippets.value, webMeta);
      && ResponseText(raw, card, webSnippets, webMeta) == BaseText(raw, card) + block + Disclaimer
      && StartsWith(block, SourcesHeader)
  {
    if webSnippets.Some? && webSnippets.value != [] {
      SourcesBlockShape(webSnippets.value, webMeta);
    }
  }
}

/** The two pure steps inside `google_search`: packing a page's words into
    at most `max_chars` characters, and keeping only the search items whose
    page body could be fetched. The HTTP calls and the HTML parsing are left
    out: the page's words and the fetched bodies are parameters. */
module Tools {
  import opened Wrappers
  import opened Text

  /** A word as `str.split()` yields it: non-empty, without whitespace. */
  predicate IsWord(w: string) {
    |w| > 0 && forall i :: 0 <= i < |w| ==> !IsSpace(w[i])
  }

  predicate AllWords(ws: seq<string>) {
    forall i :: 0 <= i < |ws| ==> IsWord(ws[i])
  }

  /** `" ".join(ws)`. */
  function Join(ws: seq<string>): string {
    if |ws| == 0 then []
    else if |ws| == 1 then ws[0]
    else Join(ws[..|ws| - 1]) + " " + ws[|ws| - 1]
  }

  /** The characters the packed text uses for these words: one separator
      before each word. */
  function Width(ws: seq<string>): nat {
    if |ws| == 0 then 0 else |ws[0]| + 1 + Width(ws[1..])
  }

  lemma {:induction false} WidthSnoc(ws: seq<string>, w: string)
    ensures Width(ws + [w]) == Width(ws) + |w| + 1
    decreases |ws|
  {
    if |ws| == 0 {
      assert ([] + [w])[1..] == [];
    } else {
      assert (ws + [w])[1..] == ws[1..] + [w];
      WidthSnoc(ws[1..], w);
    }
  }

  /** Reference for the packing loop, independent of it: how many leading
      words fit in `budget`, each costing its length plus one. */
  function KeptCount(words: seq<string>, budget: int): (k: nat)
    ensures k <= |words|
  {
    if |words| == 0 || |words[0]| + 1 > budget then 0
    else 1 + KeptCount(words[1..], budget - |words[0]| - 1)
  }

  /** The first `i` words are kept exactly when together they fit. */
  lemma {:induction false} KeptCountSpec(words: seq<string>, budget: int, i: nat)
    requires 0 < i <= |words|
    ensures i <= KeptCount(words, budget) <==> Width(words[..i]) <= budget
  {
    assert words[..i][0] == words[0];
    assert words[..i][1..] == words[1..][..i - 1];
    if i > 1 && |words[0]| + 1 <= budget {
      KeptCountSpec(words[1..], budget - |words[0]| - 1, i - 1);
    } else if i > 1 {
      assert Width(words[..i]) >= |words[0]| + 1;
    }
  }

  /** A joined run of words starts and ends with a non-space character and is
      one character shorter than its width. */
  lemma {:induction false} JoinShape(ws: seq<string>)
    requires |ws| > 0 && AllWords(ws)
    ensures var j := Join(ws);
            && |j| + 1 == Width(ws)
            && j[0] == ws[0][0]
            && !IsSpace(j[0]) && !IsSpace(j[|j| - 1])
    decreases |ws|
  {
    if |ws| == 1 {
      assert ws[1..] == [];
    } else {
      var init := ws[..|ws| - 1];
      JoinShape(init);
      assert init[0] == ws[0];
      assert init + [ws[|ws| - 1]] == ws;
      WidthSnoc(init, ws[|ws| - 1]);
      var last := ws[|ws| - 1];
      assert IsWord(last);
      assert Join(ws)[|Join(ws)| - 1] == last[|last| - 1];
    }
  }

  lemma StripLeadingSeparator(j: string)
    requires |j| > 0 && !IsSpace(j[0]) && !IsSpace(j[|j| - 1])
    ensures Strip(" " + j) == j
  {
    var s := " " + j;
    assert s[|s| - 1] == j[|j| - 1];
    assert SpaceRunStart(s, |s|) == |s|;
    assert s[1] == j[0];
    assert SpaceRunEnd(s, 1) == 1;
    assert s[1..|s|] == j;
  }

  /** The packed text after `i` words: a separator before each word. */
  function Packed(words: seq<string>, i: nat): string
    requires i <= |words|
  {
    if i == 0 then "" else " " + Join(words[..i])
  }

  /** One iteration of the packing loop: the next word fits exactly when it
      is among the words `KeptCount` keeps. */
  lemma PackFits(words: seq<string>, maxChars: int, i: nat)
    requires i < |words|
    requires |Packed(words, i)| == Width(words[..i])
    ensures |Packed(words, i)| + |words[i]| + 1 <= maxChars <==> i + 1 <= KeptCount(words, maxChars)
  {
    assert words[..i + 1] == words[..i] + [words[i]];
    WidthSnoc(words[..i], words[i]);
    KeptCountSpec(words, maxChars, i + 1);
  }

  /** Appending the next word extends the packed text by one word. */
  lemma PackSnoc(words: seq<string>, i: nat)
    requires i < |words|
    requires |Packed(words, i)| == Width(words[..i])
    ensures Packed(words, i) + " " + words[i] == Packed(words, i + 1)
    ensures |Packed(words, i + 1)| == Width(words[..i + 1])
  {
    assert words[..i + 1] == words[..i] + [words[i]];
    WidthSnoc(words[..i], words[i]);
    if i > 0 {
      assert words[..i + 1][..i] == words[..i];
    }
  }

  /** Stripping the packed text leaves the kept words joined by spaces. */
  lemma PackDone(words: seq<string>, i: nat)
    requires AllWords(words) && i <= |words|
    ensures Strip(Packed(words, i)) == Join(words[..i])
    ensures var j := Join(words[..i]); j == [] || (!IsSpace(j[0]) && !IsSpace(j[|j| - 1]))
  {
    if i > 0 {
      var kept := words[..i];
      assert AllWords(kept);
      JoinShape(kept);
      StripLeadingSeparator(Join(kept));
    }
  }

  /** `_get_page_content`'s packing loop: append `" " + word` while the text
      stays within `maxChars`, stop at the first word that would not fit,
      then strip. The result joins the kept words with single spaces, keeps
      as many leading words as fit, and is at most `maxChars` long. */
  method PackWords(words: seq<string>, maxChars: int) returns (r: string)
    requires AllWords(words)
    ensures r == Join(words[..KeptCount(words, maxChars)])
    ensures maxChars >= 0 ==> |r| <= maxChars
    ensures r == [] || (!IsSpace(r[0]) && !IsSpace(r[|r| - 1]))
  {
    var content: string := "";
    var i := 0;
    while i < |words|
      invariant 0 <= i <= |words|
      invariant i <= KeptCount(words, maxChars)
      invariant content == Packed(words, i)
      invariant |content| == Width(words[..i])
      invariant maxChars >= 0 ==> |content| <= maxChars
    {
      var word := words[i];
      PackFits(words, maxChars, i);
      PackSnoc(words, i);
      if |content| + |word| + 1 > maxChars {
        break;
      }
      content := content + " " + word;
      i := i + 1;
    }
    PackDone(words, i);
    r := Strip(content);
  }

  /** A search item as the search API returns it. */
  datatype SearchItem = SearchItem(title: string, link: string, snippet: string)

  /** A search item with the text of its page. */
  datatype EnrichedItem = EnrichedItem(title: string, link: string, snippet: string, body: string)

  /** The positions whose page body was fetched, in increasing order. */
  function FetchedIndices(bodies: seq<Option<string>>): (idx: seq<nat>)
    ensures forall j :: 0 <= j < |idx| ==> idx[j] < |bodies| && bodies[idx[j]].Some?
    ensures forall j, k :: 0 <= j < k < |idx| ==> idx[j] < idx[k]
    ensures forall i :: 0 <= i < |bodies| && bodies[i].Some? ==> i in idx
  {
    if |bodies| == 0 then []
    else
      var n := |bodies| - 1;
      FetchedIndices(bodies[..n]) + (if bodies[n].Some? then [n] else [])
  }

  /** The search items whose page body was fetched, in their original
      order, each with its body attached; items without a body are dropped. */
  function KeepFetched(items: seq<SearchItem>, bodies: seq<Option<string>>): (r: seq<EnrichedItem>)
    requires |items| == |bodies|
    ensures |r| == |FetchedIndices(bodies)|
    ensures forall j :: 0 <= j < |r| ==>
              var i := FetchedIndices(bodies)[j];
              r[j] == EnrichedItem(items[i].title, items[i].link, items[i].snippet, bodies[i].value)
  {
    if |items| == 0 then []
    else
      var n := |items| - 1;
      var kept := KeepFetched(items[..n], bodies[..n]);
      if bodies[n].Some? then
        kept + [EnrichedItem(items[n].title, items[n].link, items[n].snippet, bodies[n].value)]
      else kept
  }

  /** When every page was fetched, every item is kept, in order. */
  lemma KeepAllFetched(items: seq<SearchItem>, bodies: seq<Option<string>>)
    requires |items| == |bodies|
    requires forall i :: 0 <= i < |bodies| ==> bodies[i].Some?
    ensures |KeepFetched(items, bodies)| == |items|
    ensures forall i :: 0 <= i < |items| ==> KeepFetched(items, bodies)[i].link == items[i].link
  {
    var idx := FetchedIndices(bodies);
    IncreasingCoverIsIdentity(idx, |bodies|);
  }

  /** A strictly increasing list of positions that covers `0..n` and stays
      below `n` is `0, 1, ..., n-1`. */
  lemma {:induction false} IncreasingCoverIsIdentity(idx: seq<nat>, n: nat)
    requires forall j :: 0 <= j < |idx| ==> idx[j] < n
    requires forall j, k :: 0 <= j < k < |idx| ==> idx[j] < idx[k]
    requires forall i :: 0 <= i < n ==> i in idx
    ensures |idx| == n && forall j :: 0 <= j < n ==> idx[j] == j
    decreases n
  {
    assert |idx| == 0 || idx[0] < n;
    if n > 0 {
      assert n - 1 in idx;
      var last :| 0 <= last < |idx| && idx[last] == n - 1;
      assert idx[|idx| - 1] < n;
      assert forall j :: 0 <= j < |idx| - 1 ==> idx[j] < idx[|idx| - 1];
      assert last == |idx| - 1;
      var init := idx[..|idx| - 1];
      forall j | 0 <= j < |init| ensures init[j] < n - 1 {
        assert idx[j] < idx[last];
      }
      forall i | 0 <= i < n - 1 ensures i in init {
        assert i in idx;
        var j :| 0 <= j < |idx| && idx[j] == i;
        assert j != |idx| - 1;
        assert init[j] == i;
      }
      IncreasingCoverIsIdentity(init, n - 1);
    }
  }
}

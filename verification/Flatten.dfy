/** The statement flattener of the database runtime: collapse whitespace, without copying when there is none to fix. */
module Flatten {

  predicate IsSpace(c: char) {
    c == ' ' || c == '\t' || c == '\n'
  }

  /** The maximal runs of characters that are not spaces. */
  function Words(x: string): (ws: seq<string>)
    ensures x != "" && !IsSpace(x[|x| - 1]) ==> ws != []
  {
    if x == "" then []
    else
      var a, c := x[..|x| - 1], x[|x| - 1];
      if IsSpace(c) then Words(a)
      else if a == "" || IsSpace(a[|a| - 1]) then Words(a) + [[c]]
      else
        var ws := Words(a);
        ws[..|ws| - 1] + [ws[|ws| - 1] + [c]]
  }

  /** Words with single spaces between them. */
  function Join(ws: seq<string>): string {
    if ws == [] then ""
    else if |ws| == 1 then ws[0]
    else Join(ws[..|ws| - 1]) + " " + ws[|ws| - 1]
  }

  function Flat(x: string): string {
    Join(Words(x))
  }

  lemma JoinOneMore(ws: seq<string>, w: string)
    ensures Join(ws + [w]) == if ws == [] then w else Join(ws) + " " + w
  {
    assert (ws + [w])[..|ws|] == ws;
  }

  lemma JoinGrowsWord(ws: seq<string>, c: char)
    requires ws != []
    ensures Join(ws[..|ws| - 1] + [ws[|ws| - 1] + [c]]) == Join(ws) + [c]
  {
    hide Join;
    var before, last := ws[..|ws| - 1], ws[|ws| - 1];
    assert ws == before + [last];
    JoinOneMore(before, last);
    JoinOneMore(before, last + [c]);
    Reassociate(Join(before) + " ", last, [c]);
  }

  lemma Reassociate(a: string, b: string, c: string)
    ensures a + (b + c) == a + b + c
  {}

  /** What one more character does to the flattened string. */
  lemma FlatNext(x: string, c: char)
    ensures IsSpace(c) ==> Words(x + [c]) == Words(x) && Flat(x + [c]) == Flat(x)
    ensures !IsSpace(c) && Words(x) == [] ==> Flat(x + [c]) == [c]
    ensures !IsSpace(c) && x != "" && !IsSpace(x[|x| - 1]) ==> Flat(x + [c]) == Flat(x) + [c]
    ensures !IsSpace(c) && x != "" && IsSpace(x[|x| - 1]) && Words(x) != [] ==> Flat(x + [c]) == Flat(x) + " " + [c]
    ensures !IsSpace(c) || Words(x) != [] ==> Words(x + [c]) != []
  {
    assert (x + [c])[..|x|] == x;
    var ws := Words(x);
    if !IsSpace(c) && x != "" && !IsSpace(x[|x| - 1]) {
      JoinGrowsWord(ws, c);
      if ws == [] { assert false; }
    } else if !IsSpace(c) {
      assert (ws + [[c]])[..|ws|] == ws;
    }
  }

  lemma {:induction false} SpacesHaveNoWords(x: string)
    requires forall i :: 0 <= i < |x| ==> IsSpace(x[i])
    ensures Words(x) == []
  {
    if x != "" { SpacesHaveNoWords(x[..|x| - 1]); }
  }

  lemma {:induction false} LeadingSpace(c: char, x: string)
    requires IsSpace(c)
    ensures Words([c] + x) == Words(x)
  {
    if x == "" {
      assert [c] + x == [c];
      SpacesHaveNoWords([c]);
    } else {
      LeadingSpace(c, x[..|x| - 1]);
      assert ([c] + x)[..|x|] == [c] + x[..|x| - 1];
      if |x| == 1 { SpacesHaveNoWords([c]); }
    }
  }

  /** Spaces at the ends carry no words. */
  lemma {:induction false} TrimStart(x: string, s: nat)
    requires s <= |x| && forall i :: 0 <= i < s ==> IsSpace(x[i])
    ensures Words(x[s..]) == Words(x)
  {
    if s > 0 {
      TrimStart(x[1..], s - 1);
      LeadingSpace(x[0], x[1..]);
      assert x == [x[0]] + x[1..] && x[1..][s - 1..] == x[s..];
    }
  }

  lemma {:induction false} TrimEnd(x: string, e: nat)
    requires e <= |x| && forall i :: e <= i < |x| ==> IsSpace(x[i])
    ensures Words(x[..e]) == Words(x)
  {
    if e < |x| {
      TrimEnd(x[..|x| - 1], e);
      assert x[..|x| - 1][..e] == x[..e];
    } else {
      assert x[..e] == x;
    }
  }

  /** Copies the words from position i on, where all before i is already flat. */
  method Rewrite(x: string, i: nat, prefix: string) returns (result: string)
    requires i < |x| && IsSpace(x[i]) && !IsSpace(x[|x| - 1])
    requires prefix == Flat(x[..i]) && Words(x[..i]) != []
    ensures result == Flat(x)
  {
    hide Words, Join, Flat;
    result := prefix;
    var p := i;
    while p < |x|
      invariant p <= |x| + 1
      invariant var q := if p <= |x| then p else |x|; result == Flat(x[..q]) && Words(x[..q]) != []
      invariant p < |x| ==> IsSpace(x[p]) || (p > 0 && IsSpace(x[p - 1]))
      decreases |x| + 1 - p
    {
      ghost var p0 := p;
      while p < |x| && (x[p] == ' ' || x[p] == '\t' || x[p] == '\n')
        invariant p0 <= p <= |x| && result == Flat(x[..p]) && Words(x[..p]) != []
        invariant p > p0 ==> IsSpace(x[p - 1])
        invariant p < |x| && !IsSpace(x[p]) ==> p > 0 && IsSpace(x[p - 1])
      {
        assert x[..p + 1] == x[..p] + [x[p]];
        FlatNext(x[..p], x[p]);
        p := p + 1;
      }
      assert p < |x|;
      var start := p;
      ghost var before := result;
      result := result + " ";
      while p < |x| && x[p] != ' ' && x[p] != '\t' && x[p] != '\n'
        invariant start <= p <= |x|
        invariant p == start ==> before == Flat(x[..p]) && Words(x[..p]) != []
        invariant p > start ==> Flat(x[..p]) == before + " " + x[start..p] && Words(x[..p]) != [] && !IsSpace(x[p - 1])
      {
        assert x[..p + 1] == x[..p] + [x[p]];
        FlatNext(x[..p], x[p]);
        assert x[start..p + 1] == x[start..p] + [x[p]];
        p := p + 1;
      }
      result := result + x[start..p];
      if p < |x| {
        assert x[..p + 1] == x[..p] + [x[p]];
        FlatNext(x[..p], x[p]);
      }
      p := p + 1;
    }
    assert x[..|x|] == x;
  }

  method FlattenSQL(sql: string) returns (result: string)
    ensures result == Flat(sql)
  {
    hide Words, Join;
    var s, e := 0, |sql| - 1;
    while s < |sql| && (sql[s] == ' ' || sql[s] == '\t' || sql[s] == '\n')
      invariant s <= |sql| && forall k :: 0 <= k < s ==> IsSpace(sql[k])
    {
      s := s + 1;
    }
    while s <= e && (sql[e] == ' ' || sql[e] == '\t' || sql[e] == '\n')
      invariant s - 1 <= e < |sql| && forall k :: e < k < |sql| ==> IsSpace(sql[k])
      decreases e
    {
      e := e - 1;
    }
    TrimEnd(sql, e + 1);
    TrimStart(sql[..e + 1], s);
    var x := sql[s..e + 1];
    assert sql[..e + 1][s..] == x;
    if s > e {
      NoWords();
      return "";
    }
    var wasSpace := false;
    NoWords();
    assert x[..0] == "";
    for i := 0 to |x|
      invariant wasSpace <==> i > 0 && x[i - 1] == ' '
      invariant !wasSpace ==> i == 0 || !IsSpace(x[i - 1])
      invariant Flat(x[..i]) == if wasSpace then x[..i - 1] else x[..i]
      invariant i > 0 ==> Words(x[..i]) != []
    {
      var r := x[i];
      var justSpace := r == ' ';
      if (wasSpace && justSpace) || r == '\t' || r == '\n' {
        result := Rewrite(x, i, if wasSpace then x[..i - 1] else x[..i]);
        return;
      }
      assert x[..i + 1] == x[..i] + [r];
      FlatNext(x[..i], r);
      assert wasSpace ==> x[..i] == x[..i - 1] + " ";
      wasSpace := justSpace;
    }
    assert x[..|x|] == x;
    return x;
  }

  lemma NoWords()
    ensures Words("") == [] && Flat("") == ""
  {}

  /** A nonempty string without spaces. */
  predicate IsWord(w: string) {
    w != "" && forall i :: 0 <= i < |w| ==> !IsSpace(w[i])
  }

  predicate AllWords(ws: seq<string>) {
    forall k :: 0 <= k < |ws| ==> IsWord(ws[k])
  }

  lemma {:induction false} WordsAreWords(x: string)
    ensures AllWords(Words(x))
  {
    if x != "" { WordsAreWords(x[..|x| - 1]); }
  }

  /** After nothing or a space, a word is the next word. */
  lemma {:induction false} WordAppended(a: string, w: string)
    requires IsWord(w) && (a == "" || IsSpace(a[|a| - 1]))
    ensures Words(a + w) == Words(a) + [w]
  {
    var n := |w| - 1;
    assert (a + w)[..|a| + n] == a + w[..n];
    if n == 0 {
      assert a + w[..n] == a && w == [w[0]];
    } else {
      WordAppended(a, w[..n]);
      assert w == w[..n] + [w[n]];
      assert (Words(a) + [w[..n]])[..|Words(a)|] == Words(a);
    }
  }

  lemma JoinParts(ws: seq<string>)
    ensures ws == [] ==> Join(ws) == ""
    ensures |ws| == 1 ==> Join(ws) == ws[0]
    ensures |ws| > 1 ==> Join(ws) == Join(ws[..|ws| - 1]) + " " + ws[|ws| - 1]
  {}

  lemma {:induction false} WordsOfJoin(ws: seq<string>)
    requires AllWords(ws)
    ensures Words(Join(ws)) == ws
  {
    hide Words, Join, IsWord;
    JoinParts(ws);
    NoWords();
    if |ws| == 1 {
      WordAppended("", ws[0]);
      assert "" + ws[0] == ws[0];
    } else if |ws| > 1 {
      var init, w := ws[..|ws| - 1], ws[|ws| - 1];
      WordsOfJoin(init);
      FlatNext(Join(init), ' ');
      WordAppended(Join(init) + " ", w);
    }
  }

  /** Flattening keeps the words, and flattening twice is flattening once. */
  lemma FlattenKeepsWords(x: string)
    ensures Words(Flat(x)) == Words(x) && Flat(Flat(x)) == Flat(x)
  {
    WordsAreWords(x);
    WordsOfJoin(Words(x));
  }
}

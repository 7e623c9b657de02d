/** Splitting the report into posts: `chunkify` and `parse_tweets`. */
module Tweets {
  import opened Text

  /** The character budget `parse_tweets` divides the report length by. */
  const Budget := 250

  function Min(a: int, b: int): int {
    if a <= b then a else b
  }

  /** Where group `i` of `n` starts in a list of `len` elements, with
      `k, m = divmod(len, n)`: `i*k + min(i, m)`. */
  function Bound(len: nat, n: nat, i: nat): nat
    requires n >= 1
  {
    i * (len / n) + Min(i, len % n)
  }

  /** Consecutive bounds are `k` or `k + 1` apart, and the last one is `len`. */
  lemma BoundStep(len: nat, n: nat, i: nat)
    requires n >= 1 && i < n
    ensures Bound(len, n, i + 1) == Bound(len, n, i) + len / n + (if i < len % n then 1 else 0)
  {
    assert (i + 1) * (len / n) == i * (len / n) + len / n;
  }

  lemma {:induction false} BoundRange(len: nat, n: nat, i: nat)
    requires n >= 1 && i <= n
    ensures Bound(len, n, i) <= Bound(len, n, n) == len
    decreases n - i
  {
    if i < n {
      BoundStep(len, n, i);
      BoundRange(len, n, i + 1);
    } else {
      assert n * (len / n) + len % n == len;
    }
  }

  /** Group `i`: the slice `a_list[i*k+min(i, m):(i+1)*k+min(i+1, m)]`. */
  function Group<T>(xs: seq<T>, n: nat, i: nat): (g: seq<T>)
    requires n >= 1 && i < n
    ensures |g| == |xs| / n + (if i < |xs| % n then 1 else 0)
  {
    BoundStep(|xs|, n, i);
    BoundRange(|xs|, n, i + 1);
    xs[Bound(|xs|, n, i)..Bound(|xs|, n, i + 1)]
  }

  /** `chunkify(xs, n)`: `n` contiguous groups; the first `len(xs) % n` of
      them hold one element more than the others. */
  function Chunkify<T>(xs: seq<T>, n: nat): (groups: seq<seq<T>>)
    requires n >= 1
    ensures |groups| == n
    ensures forall i :: 0 <= i < n ==> |groups[i]| == |xs| / n + (if i < |xs| % n then 1 else 0)
  {
    seq(n, i requires 0 <= i < n => Group(xs, n, i))
  }

  /** The concatenation of a list of lists. */
  function Flatten<T>(groups: seq<seq<T>>): seq<T> {
    if groups == [] then [] else Flatten(groups[..|groups| - 1]) + groups[|groups| - 1]
  }

  lemma {:induction false} ChunkifyPrefix<T>(xs: seq<T>, n: nat, j: nat)
    requires n >= 1 && j <= n
    ensures Bound(|xs|, n, j) <= |xs|
    ensures Flatten(Chunkify(xs, n)[..j]) == xs[..Bound(|xs|, n, j)]
    decreases j
  {
    BoundRange(|xs|, n, j);
    if j > 0 {
      var groups := Chunkify(xs, n);
      ChunkifyPrefix(xs, n, j - 1);
      BoundStep(|xs|, n, j - 1);
      assert groups[..j][..j - 1] == groups[..j - 1];
      assert groups[j - 1] == xs[Bound(|xs|, n, j - 1)..Bound(|xs|, n, j)];
      assert xs[..Bound(|xs|, n, j - 1)] + xs[Bound(|xs|, n, j - 1)..Bound(|xs|, n, j)]
          == xs[..Bound(|xs|, n, j)];
    }
  }

  /** Concatenating the groups in order gives back the list. */
  lemma ChunkifyFlatten<T>(xs: seq<T>, n: nat)
    requires n >= 1
    ensures Flatten(Chunkify(xs, n)) == xs
  {
    ChunkifyPrefix(xs, n, n);
    BoundRange(|xs|, n, n);
    assert Chunkify(xs, n)[..n] == Chunkify(xs, n);
  }

  /** Every group is a contiguous run of the list, in order. */
  lemma ChunkifyContiguous<T>(xs: seq<T>, n: nat, i: nat)
    requires n >= 1 && i < n
    ensures Bound(|xs|, n, i) + |Chunkify(xs, n)[i]| <= |xs|
    ensures Chunkify(xs, n)[i] == xs[Bound(|xs|, n, i)..Bound(|xs|, n, i) + |Chunkify(xs, n)[i]|]
  {
    BoundStep(|xs|, n, i);
    BoundRange(|xs|, n, i + 1);
  }

  /** Any two group sizes differ by at most one. */
  lemma ChunkifyBalanced<T>(xs: seq<T>, n: nat, i: nat, j: nat)
    requires n >= 1 && i < n && j < n
    ensures -1 <= |Chunkify(xs, n)[i]| - |Chunkify(xs, n)[j]| <= 1
  {
  }

  /** Groups are all non-empty exactly when there are at least as many
      elements as groups; otherwise the last group is empty. */
  lemma ChunkifyEmptyGroups<T>(xs: seq<T>, n: nat)
    requires n >= 1
    ensures n <= |xs| ==> forall i :: 0 <= i < n ==> Chunkify(xs, n)[i] != []
    ensures n > |xs| ==> Chunkify(xs, n)[n - 1] == []
  {
    if n <= |xs| {
      assert |xs| / n >= 1 by {
        assert |xs| == n * (|xs| / n) + |xs| % n;
      }
    } else {
      assert |xs| / n == 0 && |xs| % n == |xs|;
    }
  }

  /** `parse_tweets`: the text unchanged when it is shorter than the budget,
      otherwise its lines cut into `len(text) // 250 + 1` groups, each group
      rejoined with line feeds. */
  function ParseTweets(text: string): (tweets: seq<string>)
    ensures |text| < Budget ==> tweets == [text]
    ensures |text| >= Budget ==> |tweets| == |text| / Budget + 1
  {
    var parts := |text| / Budget + 1;
    if parts == 1 then [text]
    else
      var groups := Chunkify(SplitLines(text), parts);
      seq(parts, i requires 0 <= i < parts => Join(groups[i]))
  }

  /** Each post is the join of a contiguous group of the text's lines, and
      the numbers of lines in two posts differ by at most one. */
  lemma ParseTweetsGroups(text: string, i: nat, j: nat)
    requires |text| >= Budget
    requires i < |text| / Budget + 1 && j < |text| / Budget + 1
    ensures var groups := Chunkify(SplitLines(text), |text| / Budget + 1);
      && ParseTweets(text)[i] == Join(groups[i])
      && -1 <= |groups[i]| - |groups[j]| <= 1
      && Flatten(groups) == SplitLines(text)
  {
    var groups := Chunkify(SplitLines(text), |text| / Budget + 1);
    ChunkifyFlatten(SplitLines(text), |text| / Budget + 1);
    ChunkifyBalanced(SplitLines(text), |text| / Budget + 1, i, j);
    assert ParseTweets(text)[i] == Join(groups[i]);
  }

  /** Joining the joins of non-empty groups is joining their concatenation. */
  lemma {:induction false} JoinGroups(groups: seq<seq<string>>)
    requires |groups| >= 1
    requires forall i :: 0 <= i < |groups| ==> groups[i] != []
    ensures Join(seq(|groups|, i requires 0 <= i < |groups| => Join(groups[i]))) == Join(Flatten(groups))
    decreases |groups|
  {
    var joined := seq(|groups|, i requires 0 <= i < |groups| => Join(groups[i]));
    var last := groups[|groups| - 1];
    if |groups| == 1 {
      assert Flatten(groups) == Flatten(groups[..0]) + last;
      assert Flatten(groups) == last;
    } else {
      var init := groups[..|groups| - 1];
      var joinedInit := seq(|init|, i requires 0 <= i < |init| => Join(init[i]));
      JoinGroups(init);
      assert joined[..|joined| - 1] == joinedInit;
      assert Join(joined) == Join(joinedInit) + "\n" + Join(last);
      assert Flatten(init) != [] by {
        FlattenNonEmpty(init);
      }
      JoinAppend(Flatten(init), last);
    }
  }

  lemma {:induction false} FlattenNonEmpty<T>(groups: seq<seq<T>>)
    requires |groups| >= 1 && groups[|groups| - 1] != []
    ensures Flatten(groups) != []
  {
  }

  /** When there are at least as many lines as posts, joining the posts with
      line feeds gives back the text, except for a final line feed. */
  lemma ParseTweetsRoundTrip(text: string)
    requires |text| >= Budget ==> |text| / Budget + 1 <= |SplitLines(text)|
    ensures Join(ParseTweets(text)) + (if |text| >= Budget && EndsWithNewline(text) then "\n" else "") == text
  {
    var parts := |text| / Budget + 1;
    if parts > 1 {
      var lines := SplitLines(text);
      var groups := Chunkify(lines, parts);
      ChunkifyEmptyGroups(lines, parts);
      JoinGroups(groups);
      ChunkifyFlatten(lines, parts);
      SplitLinesRoundTrip(text);
    }
  }

  /** The number of posts follows the length in characters, not the number
      of lines: a single line of 250 characters gives two posts, the second
      one empty. */
  lemma EmptyPostExample(text: string)
    requires |text| == Budget && NoNewline(text)
    ensures ParseTweets(text) == [text, ""]
  {
    SplitNoNewline(text);
    assert text[|text| - 1] != '\n';
    assert SplitLines(text) == [text];
    assert |text| / Budget + 1 == 2;
    var groups := Chunkify([text], 2);
    assert groups[0] == [text] && groups[1] == [];
    var tweets := ParseTweets(text);
    assert |tweets| == 2 && tweets[0] == Join(groups[0]) && tweets[1] == Join(groups[1]);
    assert tweets[0] == text && tweets[1] == "";
    PairShape(tweets);
  }

  lemma PairShape<T>(s: seq<T>)
    requires |s| == 2
    ensures s == [s[0], s[1]]
  {
  }
}

/**
 * Line-oriented text: Python's `sep.join(lines)`, and the inverse view of a
 * text as the pieces `text.split("\n")` returns.
 */
module Text {

  predicate NoNewline(s: string) {
    '\n' !in s
  }

  /** Python's `sep.join(ls)`. */
  function Join(ls: seq<string>, sep: string): string {
    if |ls| == 0 then ""
    else if |ls| == 1 then ls[0]
    else ls[0] + sep + Join(ls[1..], sep)
  }

  /** Python's `s.split("\n")`: the newline-separated pieces, always at least one. */
  function Lines(s: string): (r: seq<string>)
    ensures |r| >= 1
  {
    if s == [] then [""]
    else if s[0] == '\n' then [""] + Lines(s[1..])
    else
      var rest := Lines(s[1..]);
      [[s[0]] + rest[0]] + rest[1..]
  }

  /** A text without newlines is a single line. */
  lemma {:induction false} LinesOfLine(x: string)
    requires NoNewline(x)
    ensures Lines(x) == [x]
  {
    if x != [] {
      assert x[0] in x;
      assert NoNewline(x[1..]) by {
        forall c | c in x[1..] ensures c in x { }
      }
      LinesOfLine(x[1..]);
      assert [x[0]] + x[1..] == x;
    }
  }

  /** The first newline of `x + "\n" + y` ends the first line. */
  lemma {:induction false} LinesOfBreak(x: string, y: string)
    requires NoNewline(x)
    ensures Lines(x + "\n" + y) == [x] + Lines(y)
    decreases |x|
  {
    var s := x + "\n" + y;
    if x == [] {
      assert s[1..] == y;
    } else {
      assert x[0] in x;
      assert NoNewline(x[1..]) by {
        forall c | c in x[1..] ensures c in x { }
      }
      assert s[1..] == x[1..] + "\n" + y;
      LinesOfBreak(x[1..], y);
      assert [x[0]] + x[1..] == x;
    }
  }

  /** Splitting a newline-join of newline-free lines gives the lines back. */
  lemma {:induction false} LinesOfJoin(ls: seq<string>)
    requires |ls| >= 1
    requires forall k :: 0 <= k < |ls| ==> NoNewline(ls[k])
    ensures Lines(Join(ls, "\n")) == ls
  {
    if |ls| == 1 {
      LinesOfLine(ls[0]);
    } else {
      LinesOfBreak(ls[0], Join(ls[1..], "\n"));
      LinesOfJoin(ls[1..]);
    }
  }

  /** Joining two non-empty lists equals joining their joins. */
  lemma {:induction false} JoinAppend(a: seq<string>, b: seq<string>, sep: string)
    requires |a| >= 1 && |b| >= 1
    ensures Join(a + b, sep) == Join(a, sep) + sep + Join(b, sep)
  {
    if |a| > 1 {
      assert (a + b)[1..] == a[1..] + b;
      JoinAppend(a[1..], b, sep);
    }
  }

  /** A join ends with its last element. */
  lemma {:induction false} JoinEndsWithLast(ls: seq<string>, sep: string)
    requires |ls| >= 1
    ensures |Join(ls, sep)| >= |ls[|ls| - 1]|
    ensures Join(ls, sep)[|Join(ls, sep)| - |ls[|ls| - 1]|..] == ls[|ls| - 1]
  {
    if |ls| > 1 {
      JoinEndsWithLast(ls[1..], sep);
      var rest := Join(ls[1..], sep);
      var j := Join(ls, sep);
      assert j == ls[0] + sep + rest;
      assert j[|j| - |rest|..] == rest;
    }
  }

  /**
   * Joining lines and a final empty piece with newlines ends the text with
   * exactly one newline when the last line does not end with one.
   */
  lemma JoinTrailingNewline(ls: seq<string>)
    requires |ls| >= 1 && |ls[|ls| - 1]| >= 1 && ls[|ls| - 1][|ls[|ls| - 1]| - 1] != '\n'
    ensures var text := Join(ls + [""], "\n");
      |text| >= 2 && text[|text| - 1] == '\n' && text[|text| - 2] != '\n'
  {
    var last := ls[|ls| - 1];
    var joined := Join(ls, "\n");
    JoinEndsWithLast(ls, "\n");
    assert joined[|joined| - 1] == joined[|joined| - |last|..][|last| - 1];
    JoinAppend(ls, [""], "\n");
    assert Join([""], "\n") == "";
  }

  /** Every element of `bs` is a block of four lines. */
  predicate FourLineBlocks(bs: seq<seq<string>>) {
    forall j :: 0 <= j < |bs| ==> |bs[j]| == 4
  }

  /** The lines of four-line blocks, one block after the other: line `m` is line `m % 4` of block `m / 4`. */
  function Blocks(bs: seq<seq<string>>): (r: seq<string>)
    requires FourLineBlocks(bs)
    ensures |r| == 4 * |bs|
  {
    seq(4 * |bs|, m requires 0 <= m < 4 * |bs| => bs[m / 4][m % 4])
  }

  /** Block `k` fills lines `4k .. 4k+3`. */
  lemma BlocksAt(bs: seq<seq<string>>, k: nat)
    requires FourLineBlocks(bs) && k < |bs|
    ensures Blocks(bs)[4 * k..4 * k + 4] == bs[k]
  {
    var all := Blocks(bs);
    forall m | 0 <= m < 4 ensures all[4 * k + m] == bs[k][m] {
      assert (4 * k + m) / 4 == k && (4 * k + m) % 4 == m;
    }
  }

  /** Appending a block appends its lines. */
  lemma BlocksStep(bs: seq<seq<string>>, b: seq<string>)
    requires FourLineBlocks(bs) && |b| == 4
    ensures FourLineBlocks(bs + [b]) && Blocks(bs + [b]) == Blocks(bs) + b
  {
    var n := |bs|;
    var next := Blocks(bs + [b]);
    forall m | 0 <= m < 4 * n ensures next[m] == Blocks(bs)[m] {
      assert m / 4 < n;
    }
    forall m | 4 * n <= m < 4 * n + 4 ensures next[m] == b[m - 4 * n] {
      assert m / 4 == n && m % 4 == m - 4 * n;
    }
    assert next == Blocks(bs) + b;
  }

  /** Each block joined on its own. */
  function JoinEach(bs: seq<seq<string>>, sep: string): (r: seq<string>)
    ensures |r| == |bs|
  {
    seq(|bs|, k requires 0 <= k < |bs| => Join(bs[k], sep))
  }

  /** Joining the joined blocks is joining all their lines. */
  lemma {:induction false} JoinBlocks(bs: seq<seq<string>>, sep: string)
    requires FourLineBlocks(bs) && |bs| >= 1
    ensures Join(JoinEach(bs, sep), sep) == Join(Blocks(bs), sep)
  {
    var n := |bs|;
    var init, last := bs[..n - 1], bs[n - 1];
    assert bs == init + [last];
    BlocksStep(init, last);
    if n == 1 {
      assert JoinEach(bs, sep) == [Join(last, sep)];
      assert Blocks(bs) == last;
    } else {
      JoinBlocks(init, sep);
      assert JoinEach(bs, sep) == JoinEach(init, sep) + [Join(last, sep)];
      JoinAppend(JoinEach(init, sep), [Join(last, sep)], sep);
      JoinAppend(Blocks(init), last, sep);
    }
  }
}

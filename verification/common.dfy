/** Shared vocabulary of the model: an optional value (JavaScript's `null`
    and `undefined`), duplicate-free sequences, and ranges of integers such
    as the board 1..90 that Tambola numbers are drawn from. */
module Common {

  /** A value that may be absent. */
  datatype Option<+T> = None | Some(value: T)

  /** Largest number on the board; numbers run from 1 to `BoardSize`. */
  const BoardSize := 90

  /** `n` is a number that can be drawn: `Math.floor(Math.random() * 90) + 1`. */
  predicate OnBoard(n: int) {
    1 <= n <= BoardSize
  }

  /** No value occurs twice in `s`. */
  predicate Distinct<T(==)>(s: seq<T>) {
    forall i, j :: 0 <= i < j < |s| ==> s[i] != s[j]
  }

  /** The values occurring in `s`. */
  function Elems<T>(s: seq<T>): set<T> {
    set x | x in s
  }

  /** The same test as `lo <= i < hi`; it exists only to give the
      comprehension in `Range` a trigger. */
  predicate Between(lo: int, i: int, hi: int) {
    lo <= i < hi
  }

  /** The integers `lo <= i < hi`. */
  function Range(lo: int, hi: int): set<int> {
    set i | lo <= i < hi && Between(lo, i, hi)
  }

  /** Every number of the board, as a set. */
  function Board(): set<int> {
    Range(1, BoardSize + 1)
  }

  lemma {:induction false} RangeSize(lo: int, hi: int)
    requires lo <= hi
    ensures |Range(lo, hi)| == hi - lo
    decreases hi - lo
  {
    if lo == hi {
      assert Range(lo, hi) == {};
    } else {
      RangeSize(lo, hi - 1);
      assert Range(lo, hi) == Range(lo, hi - 1) + {hi - 1};
    }
  }

  /** A set of board numbers with fewer than 90 members misses some number
      of the board: the rejection-sampling draw always has a value to find. */
  lemma BoardNotCovered(s: set<int>)
    requires forall n :: n in s ==> OnBoard(n)
    requires |s| < BoardSize
    ensures exists n :: OnBoard(n) && n !in s
  {
    if forall n :: OnBoard(n) ==> n in s {
      assert Board() <= s;
      RangeSize(1, BoardSize + 1);
      SubsetSize(Board(), s);
      assert false;
    }
  }

  /** A set of board numbers with exactly 90 members is the whole board. */
  lemma BoardCovered(s: set<int>)
    requires forall n :: n in s ==> OnBoard(n)
    requires |s| == BoardSize
    ensures s == Board()
  {
    assert s <= Board();
    RangeSize(1, BoardSize + 1);
    SubsetSize(s, Board());
    if s != Board() {
      var m :| m in Board() && m !in s;
      SubsetSize(s + {m}, Board());
      assert false;
    }
  }

  lemma SubsetSize<T>(a: set<T>, b: set<T>)
    requires a <= b
    ensures |a| <= |b|
  {
    assert b == a + (b - a);
  }
}

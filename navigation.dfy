/**
 * The lightbox's navigation state as a value, the wrap-around rule of
 * `navigateImage`, and the neighbour indices chosen for preloading.
 * The GalleryApp class in module Gallery is proved to follow these functions.
 */
module Navigation {
  import opened Images

  /**
   * The index reached by stepping to `k` in a list of `n` images: below 0
   * wraps to the last image, at or past the end wraps to the first.
   * For the ±1 steps the lightbox takes this is arithmetic modulo n.
   */
  function WrapIndex(k: int, n: nat): (r: nat)
    requires n > 0
    ensures r < n
    ensures -1 <= k <= n ==> r == k % n
  {
    if k < 0 then n - 1 else if k >= n then 0 else k
  }

  /** The state `navigateImage` reads and writes: image list, current index, load in flight. */
  datatype NavState = NavState(images: seq<ImageRef>, index: int, loading: bool)

  /** The index is a position of the list, and 0 while the list is empty. */
  predicate InBounds(s: NavState)
  {
    if s.images == [] then s.index == 0 else 0 <= s.index < |s.images|
  }

  /** Whether `navigateImage` acts at all: it needs an image and no load in flight. */
  predicate Accepts(s: NavState)
  {
    s.images != [] && !s.loading
  }

  /** The state after `navigateImage(d)`: dropped, or moved by d with wrap-around and a new load started. */
  function Navigated(s: NavState, d: int): (r: NavState)
    ensures r.images == s.images
    ensures !Accepts(s) ==> r == s
    ensures Accepts(s) ==> r.loading && 0 <= r.index < |s.images|
  {
    if !Accepts(s) then s
    else NavState(s.images, WrapIndex(s.index + d, |s.images|), true)
  }

  /** The state after a load completes, successfully or not: only the loading flag changes. */
  function LoadCompleted(s: NavState): (r: NavState)
    ensures r.images == s.images && r.index == s.index && !r.loading
  {
    s.(loading := false)
  }

  /** Navigation never leaves the index outside the list, whatever the step. */
  lemma NavigatedInBounds(s: NavState, d: int)
    requires InBounds(s)
    ensures InBounds(Navigated(s, d))
    ensures InBounds(LoadCompleted(s))
  {
  }

  /**
   * A ±1 step moves cyclically: the index is (old + d) mod N, so the last
   * image is followed by the first and the first preceded by the last.
   */
  lemma NavigatedWraps(s: NavState, d: int)
    requires InBounds(s) && Accepts(s)
    requires d == 1 || d == -1
    ensures Navigated(s, d).index == (s.index + d) % |s.images|
    ensures d == 1 && s.index == |s.images| - 1 ==> Navigated(s, d).index == 0
    ensures d == -1 && s.index == 0 ==> Navigated(s, d).index == |s.images| - 1
  {
  }

  /** Once a step is accepted, a second step before the load completes is dropped. */
  lemma SecondNavigationDropped(s: NavState, d1: int, d2: int)
    requires Accepts(s)
    ensures Navigated(Navigated(s, d1), d2) == Navigated(s, d1)
  {
  }

  /** A step forward undone by a step back, with the load completing in between, restores the index. */
  lemma StepBackUndoesStep(s: NavState, d: int)
    requires InBounds(s) && Accepts(s)
    requires d == 1 || d == -1
    ensures Navigated(LoadCompleted(Navigated(s, d)), -d).index == s.index
  {
    var n := |s.images|;
    var t := LoadCompleted(Navigated(s, d));
    NavigatedWraps(s, d);
    NavigatedWraps(t, -d);
    if d == 1 {
      ModPred(s.index + 1, n);
    } else {
      ModSucc(s.index - 1, n);
    }
    ModUnique(s.index, 0, s.index, n);
  }

  /** `k` steps in direction d, each followed by the completion of its load. */
  function Walk(s: NavState, d: int, k: nat): (w: NavState)
    decreases k
  {
    if k == 0 then s else LoadCompleted(Navigated(Walk(s, d, k - 1), d))
  }

  /** After k completed ±1 steps the index has moved by k positions, modulo N. */
  lemma {:induction false} WalkIndex(s: NavState, d: int, k: nat)
    requires InBounds(s) && Accepts(s)
    requires d == 1 || d == -1
    ensures InBounds(Walk(s, d, k)) && Accepts(Walk(s, d, k))
    ensures Walk(s, d, k).images == s.images
    ensures Walk(s, d, k).index == (if d == 1 then s.index + k else s.index - k) % |s.images|
    decreases k
  {
    var n := |s.images|;
    if k == 0 {
      ModUnique(s.index, 0, s.index, n);
    } else {
      var w := Walk(s, d, k - 1);
      WalkIndex(s, d, k - 1);
      NavigatedWraps(w, d);
      if d == 1 {
        ModSucc(s.index + (k - 1), n);
      } else {
        ModPred(s.index - (k - 1), n);
      }
    }
  }

  /** The cyclic law: N completed steps in one direction come back to the starting image. */
  lemma WalkAroundReturns(s: NavState, d: int)
    requires InBounds(s) && Accepts(s)
    requires d == 1 || d == -1
    ensures Walk(s, d, |s.images|) == s
  {
    var n := |s.images|;
    WalkIndex(s, d, n);
    if d == 1 {
      ModUnique(s.index + n, 1, s.index, n);
    } else {
      ModUnique(s.index - n, -1, s.index, n);
    }
  }

  /** p*n is at least n in size when p is a non-zero integer. */
  lemma MulBound(p: int, n: int)
    requires n > 0
    ensures p >= 1 ==> p * n >= n
    ensures p <= -1 ==> p * n <= -n
  {
    if p >= 1 {
      assert p * n == (p - 1) * n + n;
    } else if p <= -1 {
      assert p * n == (p + 1) * n - n;
    }
  }

  /** The remainder is the unique r in [0, n) with x == q*n + r. */
  lemma ModUnique(x: int, q: int, r: int, n: int)
    requires n > 0 && 0 <= r < n && x == q * n + r
    ensures x % n == r
  {
    var p := x / n - q;
    assert x == (x / n) * n + x % n;
    assert p * n == (x / n) * n - q * n;
    MulBound(p, n);
  }

  /** ((a mod n) + 1) mod n == (a + 1) mod n */
  lemma ModSucc(a: int, n: int)
    requires n > 0
    ensures (a % n + 1) % n == (a + 1) % n
  {
    var q, r := a / n, a % n;
    assert a == q * n + r;
    if r + 1 < n {
      ModUnique(a + 1, q, r + 1, n);
      ModUnique(r + 1, 0, r + 1, n);
    } else {
      assert (q + 1) * n == q * n + n;
      ModUnique(a + 1, q + 1, 0, n);
      ModUnique(r + 1, 1, 0, n);
    }
  }

  /** ((a mod n) - 1) mod n == (a - 1) mod n */
  lemma ModPred(a: int, n: int)
    requires n > 0
    ensures (a % n - 1) % n == (a - 1) % n
  {
    var q, r := a / n, a % n;
    assert a == q * n + r;
    if r >= 1 {
      ModUnique(a - 1, q, r - 1, n);
      ModUnique(r - 1, 0, r - 1, n);
    } else {
      assert (q - 1) * n == q * n - n;
      ModUnique(a - 1, q - 1, n - 1, n);
      ModUnique(r - 1, -1, n - 1, n);
    }
  }

  /**
   * The indices `preloadAdjacentImages` fetches, taken from the candidates
   * in order: each is wrapped as WrapIndex does (below 0 to the last index, at
   * or past n to the first) and kept unless it is the current index.
   */
  function Kept(n: nat, i: int, candidates: seq<int>): (r: seq<nat>)
    requires n > 0
  {
    if candidates == [] then []
    else
      var k := WrapIndex(candidates[|candidates| - 1], n);
      Kept(n, i, candidates[..|candidates| - 1]) + (if k != i then [k] else [])
  }

  /** The neighbours preloaded around index i: the previous, then the next, wrapped, never i itself. */
  function Neighbours(n: nat, i: nat): (r: seq<nat>)
    requires i < n
  {
    Kept(n, i, [i - 1, i + 1])
  }

  /**
   * Each candidate yields at most one index, wrapped into range, and the
   * current index is never kept.
   */
  lemma {:induction false} KeptInRange(n: nat, i: int, candidates: seq<int>)
    requires n > 0
    ensures |Kept(n, i, candidates)| <= |candidates|
    ensures forall j :: 0 <= j < |Kept(n, i, candidates)| ==>
      Kept(n, i, candidates)[j] < n && Kept(n, i, candidates)[j] != i
  {
    if candidates != [] {
      KeptInRange(n, i, candidates[..|candidates| - 1]);
    }
  }

  /**
   * What is preloaded: nothing for a single image, the one other image twice
   * for two, the two distinct wrapped neighbours otherwise; never the current one.
   */
  lemma NeighboursChosen(n: nat, i: nat)
    requires i < n
    ensures forall k :: k in Neighbours(n, i) ==> k < n && k != i
    ensures n == 1 ==> Neighbours(n, i) == []
    ensures n == 2 ==> Neighbours(n, i) == [1 - i, 1 - i]
    ensures n >= 3 ==> (Neighbours(n, i) == [WrapIndex(i - 1, n), WrapIndex(i + 1, n)]
                        && WrapIndex(i - 1, n) != WrapIndex(i + 1, n))
  {
    var p, q := WrapIndex(i - 1, n), WrapIndex(i + 1, n);
    assert [i - 1, i + 1][..1] == [i - 1];
    assert [i - 1][..0] == [];
    assert Kept(n, i, [i - 1]) == (if p != i then [p] else []);
    assert Kept(n, i, [i - 1, i + 1]) == Kept(n, i, [i - 1]) + (if q != i then [q] else []);
    assert Neighbours(n, i) == (if p != i then [p] else []) + (if q != i then [q] else []);
  }
}

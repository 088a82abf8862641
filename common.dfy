/** Constants of the game window and tick, axis-aligned boxes standing for pygame
    rectangles, and small sequence utilities shared by every other module. */
module Common {

  /** Window size, tick rate and the player's base horizontal speed. */
  const Width: real := 1000.0
  const Height: real := 800.0
  const Fps: nat := 60
  const PlayerVel: real := 5.0

  function Abs(x: real): real { if x < 0.0 then -x else x }
  function Min(a: real, b: real): real { if a < b then a else b }
  function Max(a: real, b: real): real { if a < b then b else a }

  datatype Option<T> = None | Some(value: T)

  /** A rectangle: top-left corner and size. Positions are real numbers; the
      integer coercion pygame applies to rectangle coordinates is not modelled. */
  datatype Box = Box(x: real, y: real, w: real, h: real) {
    function Right(): real { x + w }
    function Bottom(): real { y + h }
    function CenterX(): real { x + w / 2.0 }
    function CenterY(): real { y + h / 2.0 }
    function Shift(dx: real, dy: real): Box { Box(x + dx, y + dy, w, h) }
  }

  /** Stand-in for pixel-mask collision (`pygame.sprite.collide_mask`): an
      arbitrary relation between the player's rectangle and another entity's. */
  type Overlap = (Box, Box) -> bool

  /** The elements of `s` that satisfy `keep`, in their original order. */
  function Filter<T>(s: seq<T>, keep: T -> bool): (r: seq<T>)
    ensures |r| <= |s|
    ensures forall x :: x in r ==> x in s && keep(x)
    ensures forall x :: x in s && keep(x) ==> x in r
  {
    if s == [] then [] else (if keep(s[0]) then [s[0]] else []) + Filter(s[1..], keep)
  }

  function MapSeq<T, U>(s: seq<T>, f: T -> U): (r: seq<U>)
    ensures |r| == |s|
    ensures forall k :: 0 <= k < |s| ==> r[k] == f(s[k])
  {
    if s == [] then [] else [f(s[0])] + MapSeq(s[1..], f)
  }

  /** Filtering distributes over concatenation; the loops that remove elements
      while walking a list rely on it. */
  lemma {:induction false} FilterAppend<T>(a: seq<T>, b: seq<T>, keep: T -> bool)
    ensures Filter(a + b, keep) == Filter(a, keep) + Filter(b, keep)
  {
    if a == [] {
      assert a + b == b;
    } else {
      assert (a + b)[0] == a[0];
      assert (a + b)[1..] == a[1..] + b;
      FilterAppend(a[1..], b, keep);
    }
  }

  lemma {:induction false} MapAppend<T, U>(a: seq<T>, b: seq<T>, f: T -> U)
    ensures MapSeq(a + b, f) == MapSeq(a, f) + MapSeq(b, f)
  {
    if a == [] {
      assert a + b == b;
    } else {
      assert (a + b)[1..] == a[1..] + b;
      MapAppend(a[1..], b, f);
    }
  }

  /** Cutting out element `j` keeps the prefix before it and shifts the rest
      down by one. */
  lemma CutAt<T>(s: seq<T>, j: nat)
    requires j < |s|
    ensures var t := s[..j] + s[j + 1..];
      |t| == |s| - 1 && t[..j] == s[..j] && t[j..] == s[j + 1..]
  {
    var t := s[..j] + s[j + 1..];
    assert t[..j] == s[..j];
    assert t[j..] == s[j + 1..];
  }

  /** Overwriting element `j` extends the prefix by the new value and keeps
      the suffix after it. */
  lemma OverwriteAt<T>(s: seq<T>, j: nat, y: T)
    requires j < |s|
    ensures var t := s[j := y];
      |t| == |s| && t[..j + 1] == s[..j] + [y] && t[j + 1..] == s[j + 1..]
  {
    var t := s[j := y];
    assert t[..j + 1] == s[..j] + [y];
    assert t[j + 1..] == s[j + 1..];
  }

  /** Filtering one element: the appended part is that element or nothing. */
  lemma FilterSingle<T>(x: T, keep: T -> bool)
    ensures Filter([x], keep) == if keep(x) then [x] else []
  {
    assert [x][1..] == [];
  }
}

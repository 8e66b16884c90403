/** Shared value types and the small pieces of the .NET library (List, String, Path)
    that the plug-in relies on. */
module Base {

  datatype Option<T> = None | Some(value: T)

  /** Unity's Color: four float channels, modelled as reals. */
  datatype Color = Color(r: real, g: real, b: real, a: real)

  const White := Color(1.0, 1.0, 1.0, 1.0)
  const Black := Color(0.0, 0.0, 0.0, 1.0)

  /** Unity's `Color * Color`: the component-wise product. */
  function Mul(x: Color, y: Color): Color
  {
    Color(x.r * y.r, x.g * y.g, x.b * y.b, x.a * y.a)
  }

  /** A texture handle owned by the editor (Texture2D); only its identity matters here. */
  datatype Texture = Texture(id: nat)

  /** UnityEngine.FontStyle. */
  datatype FontStyle = Normal | Bold | Italic | BoldAndItalic

  /** `Enumerable.Repeat(Color.white, n).ToArray()`. */
  function Whites(n: nat): (r: seq<Color>)
    ensures |r| == n && forall i :: 0 <= i < n ==> r[i] == White
  {
    seq(n, _ => White)
  }

  /** The first index from `k` on holding `x`, or -1. */
  function IndexFrom<T(==)>(s: seq<T>, x: T, k: nat): (r: int)
    requires k <= |s|
    ensures r == -1 || k <= r < |s|
    ensures r == -1 ==> forall i :: k <= i < |s| ==> s[i] != x
    ensures r >= 0 ==> s[r] == x && forall i :: k <= i < r ==> s[i] != x
    decreases |s| - k
  {
    if k == |s| then -1 else if s[k] == x then k else IndexFrom(s, x, k + 1)
  }

  /** `List<T>.IndexOf`: the first index holding `x`, or -1. */
  function IndexOf<T(==)>(s: seq<T>, x: T): (r: int)
    ensures -1 <= r < |s|
    ensures r == -1 <==> x !in s
    ensures 0 <= r ==> s[r] == x && forall i :: 0 <= i < r ==> s[i] != x
  {
    IndexFrom(s, x, 0)
  }

  /** `List<T>.Remove`: drops the first occurrence of `x`, if there is one. */
  function RemoveFirst<T(==)>(s: seq<T>, x: T): (r: seq<T>)
    ensures x !in s ==> r == s
    ensures x in s ==> |r| == |s| - 1 && r == s[..IndexOf(s, x)] + s[IndexOf(s, x) + 1..]
  {
    var i := IndexOf(s, x);
    if i < 0 then s else s[..i] + s[i + 1..]
  }

  predicate NoDups<T(==)>(s: seq<T>)
  {
    forall i, j :: 0 <= i < j < |s| ==> s[i] != s[j]
  }

  /** `Enumerable.Distinct`: the first occurrence of every element, in order. */
  function Distinct<T(==)>(s: seq<T>): (r: seq<T>)
    ensures NoDups(r)
    ensures forall i :: 0 <= i < |r| ==> r[i] in s
    ensures forall i :: 0 <= i < |s| ==> s[i] in r
    ensures |r| <= |s|
    // in the order of their first occurrences
    ensures forall i, j :: 0 <= i < j < |r| ==> IndexOf(s, r[i]) < IndexOf(s, r[j])
  {
    if |s| == 0 then []
    else
      var p := s[..|s| - 1];
      var d := Distinct(p);
      assert forall i :: 0 <= i < |s| - 1 ==> s[i] == p[i];
      assert forall x :: x in p ==> IndexOf(s, x) == IndexOf(p, x) by {
        forall x | x in p
          ensures IndexOf(s, x) == IndexOf(p, x)
        {
          IndexOfPrefix(s, |s| - 1, x);
        }
      }
      if s[|s| - 1] in d then d else d + [s[|s| - 1]]
  }

  /** An element of a prefix is first found at the same index in the whole sequence. */
  lemma IndexOfPrefix<T>(s: seq<T>, n: nat, x: T)
    requires n <= |s| && x in s[..n]
    ensures IndexOf(s, x) == IndexOf(s[..n], x)
  {
    var k := IndexOf(s[..n], x);
    assert s[..n][k] == x;
  }

  /** `Where(x => x != v)`: every element other than `v`, in order. */
  function Without<T(==)>(s: seq<T>, v: T): (r: seq<T>)
    ensures forall i :: 0 <= i < |r| ==> r[i] in s && r[i] != v
    ensures forall i :: 0 <= i < |s| && s[i] != v ==> s[i] in r
    ensures NoDups(s) ==> NoDups(r)
    ensures |r| <= |s|
  {
    if |s| == 0 then []
    else if s[0] == v then Without(s[1..], v)
    else [s[0]] + Without(s[1..], v)
  }

  /** The number of occurrences of `c` in `s` (`s.Count(x => x == c)`). */
  function CountChar(s: string, c: char): nat
  {
    if |s| == 0 then 0 else (if s[0] == c then 1 else 0) + CountChar(s[1..], c)
  }

  lemma {:induction false} CountCharAppend(a: string, b: string, c: char)
    ensures CountChar(a + b, c) == CountChar(a, c) + CountChar(b, c)
  {
    if |a| == 0 {
      assert a + b == b;
    } else {
      assert (a + b)[1..] == a[1..] + b;
      CountCharAppend(a[1..], b, c);
    }
  }

  lemma {:induction false} CountCharZero(s: string, c: char)
    requires c !in s
    ensures CountChar(s, c) == 0
  {
    if |s| > 0 {
      CountCharZero(s[1..], c);
    }
  }

  /** The last index below `n` holding `c`, or -1. */
  function LastIndexBefore<T(==)>(s: seq<T>, c: T, n: nat): (r: int)
    requires n <= |s|
    ensures -1 <= r < n
    ensures r == -1 ==> forall i :: 0 <= i < n ==> s[i] != c
    ensures r >= 0 ==> s[r] == c && forall i :: r < i < n ==> s[i] != c
  {
    if n == 0 then -1 else if s[n - 1] == c then n - 1 else LastIndexBefore(s, c, n - 1)
  }

  /** `String.LastIndexOf(char)`: the last index holding `c`, or -1. */
  function LastIndexOf(s: string, c: char): (r: int)
    ensures -1 <= r < |s|
    ensures r == -1 <==> c !in s
    ensures 0 <= r ==> s[r] == c && forall i :: r < i < |s| ==> s[i] != c
  {
    LastIndexBefore(s, c, |s|)
  }

  /** `String.StartsWith`. */
  predicate StartsWith(s: string, prefix: string)
  {
    |prefix| <= |s| && s[..|prefix|] == prefix
  }

  /** `c` occurs in `s` exactly when it is counted. */
  lemma {:induction false} CountCharPositive(s: string, c: char)
    ensures CountChar(s, c) > 0 <==> c in s
  {
    if |s| > 0 {
      CountCharPositive(s[1..], c);
      assert s == [s[0]] + s[1..];
    }
  }

  /** The part of a '/'-separated path after its last '/'. */
  function FileName(path: string): (r: string)
    ensures '/' !in r && |r| <= |path| && path[|path| - |r|..] == r
    ensures |r| < |path| ==> path[|path| - |r| - 1] == '/'
  {
    path[LastIndexOf(path, '/') + 1..]
  }

  /** `Path.GetFileNameWithoutExtension` for the '/'-separated paths of the asset
      database: the part after the last '/', without its last '.' and what follows. */
  function FileNameWithoutExtension(path: string): (r: string)
    ensures '/' !in r
    ensures |r| <= |path|
  {
    var name := path[LastIndexOf(path, '/') + 1..];
    var dot := LastIndexOf(name, '.');
    if dot < 0 then name else name[..dot]
  }

  /** The name without extension is the file name up to, not including, its
      last '.', and the whole file name when it has no '.'. */
  lemma FileNameWithoutExtensionIsStem(path: string)
    ensures var name := FileName(path);
            var r := FileNameWithoutExtension(path);
            |r| <= |name| && name[..|r|] == r
            && (r == name <==> '.' !in name)
            && (|r| < |name| ==> name[|r|] == '.' && '.' !in name[|r| + 1..])
  {
    var name := FileName(path);
    var dot := LastIndexOf(name, '.');
    if dot >= 0 {
      assert FileNameWithoutExtension(path) == name[..dot];
      NoneAfterLast(name, '.');
      assert name[dot] in name;
    } else {
      assert FileNameWithoutExtension(path) == name;
    }
  }

  /** Nothing after the last occurrence of `c` is `c`. */
  lemma NoneAfterLast(s: string, c: char)
    requires LastIndexOf(s, c) >= 0
    ensures c !in s[LastIndexOf(s, c) + 1..]
  {
    var k := LastIndexOf(s, c);
    var t := s[k + 1..];
    forall i | 0 <= i < |t|
      ensures t[i] != c
    {
      assert t[i] == s[k + 1 + i];
    }
  }
}

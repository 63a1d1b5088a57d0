/** Output-path derivation of `process_and_convert`: the input's directory and
    basename (POSIX `os.path.dirname`/`basename`), the stem obtained by removing
    every ".ply" from the basename (`str.replace`), and the two derived paths
    (`os.path.join`) for the intermediate PLY file and the final SOG file. */
module Paths {

  type Path = string

  const Sep: char := '/'
  const PlyExt: string := ".ply"
  const IntermediateSuffix: string := "_fixed_30.ply"
  const SogExt: string := ".sog"

  /** True when a ".ply" occurrence starts at index `i` of `s`. */
  predicate PlyAt(s: string, i: int) {
    0 <= i && i + 4 <= |s| && s[i..i + 4] == PlyExt
  }

  predicate ContainsPly(s: string) {
    exists i :: 0 <= i <= |s| && PlyAt(s, i)
  }

  predicate AllSeps(s: string) {
    forall i :: 0 <= i < |s| ==> s[i] == Sep
  }

  /** `s.replace(".ply", "")`: scan from the left, dropping each ".ply" found and
      resuming the scan right after it, so occurrences never overlap. */
  function RemovePly(s: string): (r: string)
    ensures |r| <= |s| && (|s| - |r|) % 4 == 0
    ensures forall c :: c in r ==> c in s
    decreases |s|
  {
    if |s| < 4 then s
    else if s[..4] == PlyExt then RemovePly(s[4..])
    else [s[0]] + RemovePly(s[1..])
  }

  /** Length of the directory part as `rfind(sep) + 1` computes it: the
      separator-free tail starts there, and the part before ends in a separator. */
  function HeadLength(p: Path): (k: nat)
    ensures k <= |p|
    ensures Sep !in p[k..]
    ensures k > 0 ==> p[k - 1] == Sep
  {
    if p == [] then 0
    else if p[|p| - 1] == Sep then |p|
    else
      var k := HeadLength(p[..|p| - 1]);
      assert p[k..] == p[..|p| - 1][k..] + [p[|p| - 1]];
      k
  }

  /** `s.rstrip(sep)`: the longest prefix that does not end in a separator. */
  function TrimSeps(s: string): (r: string)
    ensures r <= s
    ensures r == [] || r[|r| - 1] != Sep
    ensures forall i :: |r| <= i < |s| ==> s[i] == Sep
  {
    if s != [] && s[|s| - 1] == Sep then TrimSeps(s[..|s| - 1]) else s
  }

  /** `os.path.basename(p)` (POSIX): everything after the last separator. */
  function Basename(p: Path): (b: Path)
    ensures Sep !in b
  {
    p[HeadLength(p)..]
  }

  /** `os.path.dirname(p)` (POSIX): everything up to the last separator, with
      trailing separators stripped unless the head consists only of separators. */
  function Dirname(p: Path): (d: Path)
    ensures d <= p
    ensures d == [] || d[|d| - 1] != Sep || AllSeps(d)
  {
    var head := p[..HeadLength(p)];
    if head != [] && !AllSeps(head) then TrimSeps(head) else head
  }

  /** `os.path.join(a, b)` (POSIX, two components): `b` ends the result. */
  function Join(a: Path, b: Path): (r: Path)
    ensures |b| <= |r| && r[|r| - |b|..] == b
  {
    if (b != [] && b[0] == Sep) || a == [] then b
    else if a[|a| - 1] == Sep then a + b
    else a + [Sep] + b
  }

  /** The basename with every ".ply" removed (ply2sog.py:45). */
  function Stem(p: Path): (s: Path)
    ensures Sep !in s
  {
    RemovePly(Basename(p))
  }

  /** `os.path.join(dirname, stem + "_fixed_30.ply")`: the path ends in
      "_fixed_30.ply". */
  function IntermediatePath(p: Path): (q: Path)
    ensures |IntermediateSuffix| <= |q| && q[|q| - |IntermediateSuffix|..] == IntermediateSuffix
  {
    var n := Stem(p) + IntermediateSuffix;
    var q := Join(Dirname(p), n);
    TailOfTail(q, Stem(p), IntermediateSuffix);
    q
  }

  /** `os.path.join(dirname, stem + ".sog")`: the path ends in ".sog". */
  function SogPath(p: Path): (q: Path)
    ensures |SogExt| <= |q| && q[|q| - |SogExt|..] == SogExt
  {
    var n := Stem(p) + SogExt;
    var q := Join(Dirname(p), n);
    TailOfTail(q, Stem(p), SogExt);
    q
  }

  /** A path ending in `s + t` ends in `t`. */
  lemma TailOfTail(q: string, s: string, t: string)
    requires |s + t| <= |q| && q[|q| - |s + t|..] == s + t
    ensures |t| <= |q| && q[|q| - |t|..] == t
  {
    assert q[|q| - |t|..] == q[|q| - |s + t|..][|s|..];
  }

  // ---------------------------------------------------------------------------
  // str.replace

  /** A ".ply" occurrence in `s` is either at its start or one in `s[1..]`. */
  lemma ContainsPlyCons(s: string)
    requires |s| >= 1
    ensures ContainsPly(s) <==> PlyAt(s, 0) || ContainsPly(s[1..])
  {
    if ContainsPly(s) && !PlyAt(s, 0) {
      var i :| 0 <= i <= |s| && PlyAt(s, i);
      assert 1 <= i && i + 4 <= |s|;
      var t := s[1..];
      assert t[i - 1..i + 3] == s[i..i + 4];
      assert PlyAt(t, i - 1);
    }
    var t := s[1..];
    if ContainsPly(t) {
      var j :| 0 <= j <= |t| && PlyAt(t, j);
      assert s[j + 1..j + 5] == t[j..j + 4];
      assert PlyAt(s, j + 1);
    }
  }

  /** The stem equals the basename exactly when the basename holds no ".ply". */
  lemma {:induction false} RemovePlyUnchangedIff(s: string)
    ensures RemovePly(s) == s <==> !ContainsPly(s)
    decreases |s|
  {
    if |s| < 4 {
      assert !ContainsPly(s);
    } else {
      ContainsPlyCons(s);
      if s[..4] == PlyExt {
        assert PlyAt(s, 0);
        assert |RemovePly(s)| < |s|;
      } else {
        assert !PlyAt(s, 0);
        RemovePlyUnchangedIff(s[1..]);
        assert s == [s[0]] + s[1..];
        assert RemovePly(s) == s ==> RemovePly(s[1..]) == s[1..] by {
          if RemovePly(s) == s {
            assert RemovePly(s)[1..] == RemovePly(s[1..]);
          }
        }
      }
    }
  }

  /** When `p` is shorter than 4, the first four characters of `p + ".sog"`
      include the '.' of ".sog" at a place where ".ply" has a letter. */
  lemma ShortStemNoPly(p: string)
    ensures |p| < 4 ==> (p + SogExt)[..4] != PlyExt
  {
    var s := p + SogExt;
    if |p| == 0 {
      assert s[..4][1] == 's';
    } else if |p| < 4 {
      assert s[..4][|p|] == '.';
    }
  }

  /** A ".ply" at the start of `p + ".sog"` lies wholly inside `p`. */
  lemma PlyPrefixInsideStem(p: string)
    requires (p + SogExt)[..4] == PlyExt
    ensures |p| >= 4 && p[..4] == PlyExt
  {
    var s := p + SogExt;
    ShortStemNoPly(p);
    assert p[..4] == s[..4];
  }

  /** When no ".ply" starts at the front, the first character is kept. */
  lemma RemovePlyKeepsHead(p: string)
    requires p != [] && !(|p| >= 4 && p[..4] == PlyExt)
    ensures RemovePly(p) == [p[0]] + RemovePly(p[1..])
  {
    if |p| < 4 {
      assert p == [p[0]] + p[1..];
    }
  }

  /** Appending ".sog" commutes with the ".ply" removal: no ".ply" can start
      in, or reach into, a trailing ".sog". */
  lemma {:induction false} RemovePlyAppendSog(p: string)
    ensures RemovePly(p + SogExt) == RemovePly(p) + SogExt
    decreases |p|
  {
    var s := p + SogExt;
    if p == [] {
      assert s == SogExt && s[..4][1] != PlyExt[1];
      RemovePlyKeepsHead(s);
      assert s == [s[0]] + s[1..];
    } else if s[..4] == PlyExt {
      PlyPrefixInsideStem(p);
      assert RemovePly(s) == RemovePly(s[4..]);
      assert RemovePly(p) == RemovePly(p[4..]);
      assert s[4..] == p[4..] + SogExt;
      RemovePlyAppendSog(p[4..]);
    } else {
      assert s[1..] == p[1..] + SogExt;
      RemovePlyAppendSog(p[1..]);
      if |p| >= 4 {
        assert p[..4] == s[..4];
      }
      RemovePlyKeepsHead(p);
      var t := RemovePly(p[1..]);
      assert [s[0]] + (t + SogExt) == ([p[0]] + t) + SogExt;
    }
  }

  /** Removing ".ply" and then appending ".sog" never reproduces the original
      name, so the final file never has the input's basename. */
  lemma {:induction false} SogNameDiffers(b: string)
    ensures RemovePly(b) + SogExt != b
    decreases |b|
  {
    if |b| >= 4 && RemovePly(b) + SogExt == b {
      var p := b[..|b| - 4];
      assert b == p + SogExt by {
        assert b[|b| - 4..] == (RemovePly(b) + SogExt)[|b| - 4..];
      }
      RemovePlyAppendSog(p);
      assert RemovePly(p) + SogExt + SogExt == p + SogExt;
      assert RemovePly(p) + SogExt == (RemovePly(p) + SogExt + SogExt)[..|p|];
      SogNameDiffers(p);
    }
  }

  /** The intermediate name never equals the input's basename: each removal drops
      4 characters while the suffix adds 13, and 13 is not a multiple of 4. */
  lemma IntermediateNameDiffers(b: string)
    ensures RemovePly(b) + IntermediateSuffix != b
  {
    assert |IntermediateSuffix| == 13;
  }

  // ---------------------------------------------------------------------------
  // dirname / basename / join

  /** The head length is pinned down by its characterisation: it is the position
      right after a separator with no separator following it. */
  lemma HeadLengthAt(p: Path, k: nat)
    requires k <= |p| && Sep !in p[k..] && (k > 0 ==> p[k - 1] == Sep)
    ensures HeadLength(p) == k
  {
    var h := HeadLength(p);
  }

  lemma TrimSepsAt(s: string, m: nat)
    requires m <= |s| && (m == 0 || s[m - 1] != Sep)
    requires forall i :: m <= i < |s| ==> s[i] == Sep
    ensures TrimSeps(s) == s[..m]
  {
  }

  /** A name without separators joined onto `dirname(p)` is a sibling of `p`:
      its directory is `dirname(p)` and its basename is the name itself. */
  lemma SiblingPath(p: Path, n: Path)
    requires n != [] && Sep !in n
    ensures Dirname(Join(Dirname(p), n)) == Dirname(p)
    ensures Basename(Join(Dirname(p), n)) == n
  {
    var d := Dirname(p);
    var q := Join(d, n);
    assert n[0] != Sep by { assert n[0] in n; }
    if d == [] {
      assert q == n;
      HeadLengthAt(q, 0);
      assert q[..0] == [];
    } else if d[|d| - 1] == Sep {
      assert AllSeps(d);
      assert q == d + n;
      assert q[|d|..] == n;
      HeadLengthAt(q, |d|);
      assert q[..|d|] == d;
    } else {
      assert q == d + [Sep] + n;
      assert q[|d| + 1..] == n;
      HeadLengthAt(q, |d| + 1);
      var head := q[..|d| + 1];
      assert head == d + [Sep];
      assert !AllSeps(head) by { assert head[|d| - 1] != Sep; }
      TrimSepsAt(head, |d|);
      assert head[..|d|] == d;
    }
  }

  /** Both derived files sit in the input's directory under their own names,
      and neither can be the input itself or the other one. */
  lemma DerivedPathsDistinct(p: Path)
    ensures Dirname(IntermediatePath(p)) == Dirname(p)
    ensures Dirname(SogPath(p)) == Dirname(p)
    ensures Basename(IntermediatePath(p)) == Stem(p) + IntermediateSuffix
    ensures Basename(SogPath(p)) == Stem(p) + SogExt
    ensures IntermediatePath(p) != p
    ensures SogPath(p) != p
    ensures IntermediatePath(p) != SogPath(p)
  {
    var stem := Stem(p);
    var ni, ns := stem + IntermediateSuffix, stem + SogExt;
    assert Sep !in ni by { assert ni[|stem|..] == IntermediateSuffix; }
    assert Sep !in ns by { assert ns[|stem|..] == SogExt; }
    SiblingPath(p, ni);
    SiblingPath(p, ns);
    IntermediateNameDiffers(Basename(p));
    SogNameDiffers(Basename(p));
    assert ni[|ni| - 1] != ns[|ns| - 1];
  }
}

/**
 The pre-image of a blueprint source digest (flowgency/fs/snapshot.py): files in
 path order, each framed by the lengths of its path and of its content. It does
 not depend on the order the files were found in, and it names one set of files.
 */
module SourceDigest {
  import opened Sorting
  import opened Wrappers

  type Byte = b: int | 0 <= b < 256

  type Bytes = seq<Byte>

  const LENGTH_BYTES: nat := 8

  datatype SnapshotFile<P> = SnapshotFile(path: P, content: Bytes)

  // How paths compare as text and how they are encoded.
  datatype Paths<!P> = Paths(le: (P, P) -> bool, encode: P -> Bytes)

  ghost predicate PathsOk<P(!new)>(paths: Paths<P>) {
    && TotalOrder(paths.le)
    && (forall p, q :: paths.le(p, q) && paths.le(q, p) ==> p == q)
    && (forall p, q :: paths.encode(p) == paths.encode(q) ==> p == q)
  }

  // ---- Big-endian lengths ------------------------------------------------

  function BigEndian(n: nat, width: nat): (r: Bytes)
    ensures |r| == width
  {
    if width == 0 then [] else BigEndian(n / 256, width - 1) + [n % 256]
  }

  function Value(bytes: Bytes): nat {
    if bytes == [] then 0 else Value(bytes[..|bytes| - 1]) * 256 + bytes[|bytes| - 1]
  }

  /** Read from the most significant byte on, the encoding is the number. */
  lemma {:induction false} BigEndianValue(n: nat, width: nat)
    requires n < Power256(width)
    ensures Value(BigEndian(n, width)) == n
  {
    if width > 0 {
      BigEndianValue(n / 256, width - 1);
      assert BigEndian(n, width)[..width - 1] == BigEndian(n / 256, width - 1);
    }
  }

  function Power256(width: nat): nat {
    if width == 0 then 1 else 256 * Power256(width - 1)
  }

  /** Two numbers that fit are told apart by their encodings. */
  lemma {:induction false} BigEndianInjective(m: nat, n: nat, width: nat)
    requires m < Power256(width) && n < Power256(width) && BigEndian(m, width) == BigEndian(n, width)
    ensures m == n
  {
    if width > 0 {
      var a, b := BigEndian(m, width), BigEndian(n, width);
      assert a[..width - 1] == BigEndian(m / 256, width - 1) && b[..width - 1] == BigEndian(n / 256, width - 1);
      assert a[width - 1] == m % 256 && b[width - 1] == n % 256;
      BigEndianInjective(m / 256, n / 256, width - 1);
    }
  }

  // ---- Framing -----------------------------------------------------------

  function Framed(data: Bytes): Bytes {
    BigEndian(|data|, LENGTH_BYTES) + data
  }

  function Frame<P>(paths: Paths<P>, file: SnapshotFile<P>): Bytes {
    Framed(paths.encode(file.path)) + Framed(file.content)
  }

  function Frames<P>(paths: Paths<P>, files: seq<SnapshotFile<P>>): Bytes {
    if files == [] then [] else Frames(paths, files[..|files| - 1]) + Frame(paths, files[|files| - 1])
  }

  function ByPath<P>(paths: Paths<P>): (SnapshotFile<P>, SnapshotFile<P>) -> bool {
    (a: SnapshotFile<P>, b: SnapshotFile<P>) => paths.le(a.path, b.path)
  }

  function PreImage<P>(paths: Paths<P>, prefix: Bytes, files: seq<SnapshotFile<P>>): Bytes {
    prefix + Frames(paths, Sort(ByPath(paths), files))
  }

  /** What the digest is fed, piece by piece. */
  method ComputeSourceDigest<P>(paths: Paths<P>, prefix: Bytes, files: seq<SnapshotFile<P>>) returns (digest: Bytes)
    ensures digest == PreImage(paths, prefix, files)
  {
    digest := prefix;
    var ordered := Sort(ByPath(paths), files);
    for i := 0 to |ordered|
      invariant digest == prefix + Frames(paths, ordered[..i])
    {
      var item := ordered[i];
      var encodedPath := paths.encode(item.path);
      assert ordered[..i + 1][..i] == ordered[..i];
      digest := digest + BigEndian(|encodedPath|, LENGTH_BYTES);
      digest := digest + encodedPath;
      digest := digest + BigEndian(|item.content|, LENGTH_BYTES);
      digest := digest + item.content;
      assert digest == prefix + (Frames(paths, ordered[..i]) + Frame(paths, item));
    }
    assert ordered[..|ordered|] == ordered;
  }

  // ---- Order independence ------------------------------------------------

  ghost predicate DistinctPaths<P>(files: seq<SnapshotFile<P>>) {
    forall i, j :: 0 <= i < j < |files| ==> files[i].path != files[j].path
  }

  ghost predicate SameFiles<P(!new)>(xs: seq<SnapshotFile<P>>, ys: seq<SnapshotFile<P>>) {
    forall f :: f in xs <==> f in ys
  }

  lemma {:induction false} DistinctSorted<P(!new)>(paths: Paths<P>, files: seq<SnapshotFile<P>>)
    requires PathsOk(paths) && DistinctPaths(files)
    ensures Untied(ByPath(paths), Sort(ByPath(paths), files)) && Ordered(ByPath(paths), Sort(ByPath(paths), files))
    ensures SameFiles(Sort(ByPath(paths), files), files) && DistinctPaths(Sort(ByPath(paths), files))
  {
    ByPathOrders(paths);
    SortOrders(ByPath(paths), files);
    SortedStaysDistinct(files, Sort(ByPath(paths), files));
  }

  lemma ByPathOrders<P(!new)>(paths: Paths<P>)
    requires PathsOk(paths)
    ensures TotalOrder(ByPath(paths))
  {
    var le := ByPath(paths);
    forall a, b
      ensures le(a, b) || le(b, a)
    {
      assert paths.le(a.path, b.path) || paths.le(b.path, a.path);
    }
    forall a, b, c | le(a, b) && le(b, c)
      ensures le(a, c)
    {
      assert paths.le(a.path, b.path) && paths.le(b.path, c.path);
    }
  }

  lemma SortedStaysDistinct<P(!new)>(before: seq<SnapshotFile<P>>, after: seq<SnapshotFile<P>>)
    requires multiset(before) == multiset(after) && DistinctPaths(before)
    ensures DistinctPaths(after)
  {
    EachOnce(before);
    forall i, j | 0 <= i < j < |after|
      ensures after[i].path != after[j].path
    {
      assert after[i] in multiset(before) && after[j] in multiset(before);
      assert after == after[..i] + [after[i]] + after[i + 1..j] + [after[j]] + after[j + 1..];
    }
  }

  lemma {:induction false} EachOnce<P(!new)>(files: seq<SnapshotFile<P>>)
    requires DistinctPaths(files)
    ensures forall f :: multiset(files)[f] <= 1
  {
    if files != [] {
      EachOnce(files[1..]);
      assert files == [files[0]] + files[1..];
      assert files[0] !in files[1..];
    }
  }

  /** The same files in any order give the same pre-image. */
  lemma PreImageIgnoresOrder<P(!new)>(paths: Paths<P>, prefix: Bytes, xs: seq<SnapshotFile<P>>, ys: seq<SnapshotFile<P>>)
    requires PathsOk(paths) && DistinctPaths(xs) && DistinctPaths(ys) && SameFiles(xs, ys)
    ensures PreImage(paths, prefix, xs) == PreImage(paths, prefix, ys)
  {
    DistinctSorted(paths, xs);
    DistinctSorted(paths, ys);
    OrderedIsUnique(ByPath(paths), Sort(ByPath(paths), xs), Sort(ByPath(paths), ys));
  }

  // ---- Unique decoding ---------------------------------------------------

  predicate Fits<P>(paths: Paths<P>, file: SnapshotFile<P>) {
    |paths.encode(file.path)| < Power256(LENGTH_BYTES) && |file.content| < Power256(LENGTH_BYTES)
  }

  ghost predicate AllFit<P>(paths: Paths<P>, files: seq<SnapshotFile<P>>) {
    forall f :: f in files ==> Fits(paths, f)
  }

  /** A frame ends where its length says, whatever follows. */
  lemma FrameEnds(a: Bytes, x: Bytes, b: Bytes, y: Bytes)
    requires |a| < Power256(LENGTH_BYTES) && |b| < Power256(LENGTH_BYTES)
    requires Framed(a) + x == Framed(b) + y
    ensures a == b && x == y
  {
    var s, t := Framed(a) + x, Framed(b) + y;
    assert s[..LENGTH_BYTES] == BigEndian(|a|, LENGTH_BYTES) && t[..LENGTH_BYTES] == BigEndian(|b|, LENGTH_BYTES);
    BigEndianInjective(|a|, |b|, LENGTH_BYTES);
    assert s[LENGTH_BYTES..][..|a|] == a && t[LENGTH_BYTES..][..|b|] == b;
    assert s[LENGTH_BYTES..][|a|..] == x && t[LENGTH_BYTES..][|b|..] == y;
  }

  lemma {:induction false} FramesFromFront<P>(paths: Paths<P>, files: seq<SnapshotFile<P>>)
    requires files != []
    ensures Frames(paths, files) == Frame(paths, files[0]) + Frames(paths, files[1..])
    decreases |files|
  {
    var last := |files| - 1;
    if last > 0 {
      FramesFromFront(paths, files[..last]);
      assert files[..last][1..] == files[1..][..last - 1];
      assert files[..last][0] == files[0] && files[1..][last - 1] == files[last];
    } else {
      assert files[..0] == [] && files[1..] == [];
    }
  }

  /** The first frames agree, and so does what follows them. */
  lemma FirstFrames<P(!new)>(paths: Paths<P>, xs: seq<SnapshotFile<P>>, ys: seq<SnapshotFile<P>>)
    requires PathsOk(paths) && xs != [] && ys != [] && Fits(paths, xs[0]) && Fits(paths, ys[0])
    requires Frames(paths, xs) == Frames(paths, ys)
    ensures xs[0] == ys[0] && Frames(paths, xs[1..]) == Frames(paths, ys[1..])
  {
    var x, y := xs[0], ys[0];
    var restX, restY := Frames(paths, xs[1..]), Frames(paths, ys[1..]);
    FramesFromFront(paths, xs);
    FramesFromFront(paths, ys);
    Regroup(Framed(paths.encode(x.path)), Framed(x.content), restX);
    Regroup(Framed(paths.encode(y.path)), Framed(y.content), restY);
    FrameEnds(paths.encode(x.path), Framed(x.content) + restX, paths.encode(y.path), Framed(y.content) + restY);
    FrameEnds(x.content, restX, y.content, restY);
  }

  lemma Regroup(a: Bytes, b: Bytes, c: Bytes)
    ensures a + b + c == a + (b + c)
  {
  }

  lemma {:induction false} FramesDecode<P(!new)>(paths: Paths<P>, xs: seq<SnapshotFile<P>>, ys: seq<SnapshotFile<P>>)
    requires PathsOk(paths) && AllFit(paths, xs) && AllFit(paths, ys)
    requires Frames(paths, xs) == Frames(paths, ys)
    ensures xs == ys
    decreases |xs|
  {
    NoFramesNoFiles(paths, xs);
    NoFramesNoFiles(paths, ys);
    if xs != [] {
      assert xs[0] in xs && ys[0] in ys;
      FirstFrames(paths, xs, ys);
      FramesDecode(paths, xs[1..], ys[1..]);
      assert xs == [xs[0]] + xs[1..] && ys == [ys[0]] + ys[1..];
    }
  }

  lemma NoFramesNoFiles<P>(paths: Paths<P>, files: seq<SnapshotFile<P>>)
    ensures Frames(paths, files) == [] <==> files == []
  {
    if files != [] {
      assert |Frame(paths, files[|files| - 1])| >= LENGTH_BYTES;
    }
  }

  /** Two file sets have the same pre-image exactly when they are the same set. */
  lemma PreImageNamesTheFiles<P(!new)>(paths: Paths<P>, prefix: Bytes, xs: seq<SnapshotFile<P>>, ys: seq<SnapshotFile<P>>)
    requires PathsOk(paths) && DistinctPaths(xs) && DistinctPaths(ys) && AllFit(paths, xs) && AllFit(paths, ys)
    ensures PreImage(paths, prefix, xs) == PreImage(paths, prefix, ys) <==> SameFiles(xs, ys)
  {
    var a, b := Sort(ByPath(paths), xs), Sort(ByPath(paths), ys);
    DistinctSorted(paths, xs);
    DistinctSorted(paths, ys);
    if PreImage(paths, prefix, xs) == PreImage(paths, prefix, ys) {
      assert PreImage(paths, prefix, xs)[|prefix|..] == Frames(paths, a);
      assert PreImage(paths, prefix, ys)[|prefix|..] == Frames(paths, b);
      FramesDecode(paths, a, b);
    }
    if SameFiles(xs, ys) {
      PreImageIgnoresOrder(paths, prefix, xs, ys);
    }
  }

  /** Files go in by ascending path, each as eight bytes of length and the path, then
      eight bytes of length and the content. */
  lemma PreImageLayout<P(!new)>(paths: Paths<P>, prefix: Bytes, a: SnapshotFile<P>, b: SnapshotFile<P>)
    requires PathsOk(paths) && Fits(paths, a) && Fits(paths, b) && a.path != b.path && paths.le(a.path, b.path)
    ensures exists pa: Bytes, ca: Bytes, pb: Bytes, cb: Bytes ::
      && |pa| == |ca| == |pb| == |cb| == 8
      && Value(pa) == |paths.encode(a.path)| && Value(ca) == |a.content|
      && Value(pb) == |paths.encode(b.path)| && Value(cb) == |b.content|
      && PreImage(paths, prefix, [a, b])
         == PreImage(paths, prefix, [b, a])
         == prefix + ((pa + paths.encode(a.path) + (ca + a.content)) + (pb + paths.encode(b.path) + (cb + b.content)))
  {
    SortedTwo(paths, a, b);
    FramesOfTwo(paths, a, b);
    var pa, ca := BigEndian(|paths.encode(a.path)|, LENGTH_BYTES), BigEndian(|a.content|, LENGTH_BYTES);
    var pb, cb := BigEndian(|paths.encode(b.path)|, LENGTH_BYTES), BigEndian(|b.content|, LENGTH_BYTES);
    BigEndianValue(|paths.encode(a.path)|, LENGTH_BYTES);
    BigEndianValue(|a.content|, LENGTH_BYTES);
    BigEndianValue(|paths.encode(b.path)|, LENGTH_BYTES);
    BigEndianValue(|b.content|, LENGTH_BYTES);
    assert Frame(paths, a) == pa + paths.encode(a.path) + (ca + a.content);
    assert Frame(paths, b) == pb + paths.encode(b.path) + (cb + b.content);
  }

  lemma SortedTwo<P(!new)>(paths: Paths<P>, a: SnapshotFile<P>, b: SnapshotFile<P>)
    requires PathsOk(paths) && a.path != b.path && paths.le(a.path, b.path)
    ensures Sort(ByPath(paths), [a, b]) == Sort(ByPath(paths), [b, a]) == [a, b]
  {
    var le := ByPath(paths);
    assert [a, b][1..] == [b] && [b, a][1..] == [a] && [a][1..] == [] && [b][1..] == [];
    assert Sort(le, [a]) == [a] && Sort(le, [b]) == [b];
    assert Insert(le, b, []) == [b];
  }

  lemma FramesOfTwo<P>(paths: Paths<P>, a: SnapshotFile<P>, b: SnapshotFile<P>)
    ensures Frames(paths, [a, b]) == Frame(paths, a) + Frame(paths, b)
  {
    assert [a, b][..1] == [a] && [a][..0] == [];
    assert Frames(paths, [a]) == Frame(paths, a);
  }

  // ---- Lookup ------------------------------------------------------------

  /** `TreeSnapshot.file`; `None` is the KeyError. */
  method FindFile<P(==)>(files: seq<SnapshotFile<P>>, target: P) returns (found: Option<SnapshotFile<P>>)
    ensures found.Some? ==> found.value in files && found.value.path == target
    ensures found.None? <==> forall f :: f in files ==> f.path != target
    ensures DistinctPaths(files) ==> forall f :: f in files && f.path == target ==> found == Some(f)
  {
    for i := 0 to |files|
      invariant forall j :: 0 <= j < i ==> files[j].path != target
    {
      if files[i].path == target {
        return Some(files[i]);
      }
    }
    return None;
  }
}

/** Record extraction: the image list that drives navigation and the
    per-image object lookup (app.py, `get_images` and `get_objects`). */
module Annotations {
  import opened Records

  /** The `(id, file_name)` pair the viewer keeps per image. */
  datatype ImageEntry = ImageEntry(id: int, fileName: string)

  /** The navigation list: one entry per image record, in file order. */
  function GetImages(images: seq<ImageRecord>): (entries: seq<ImageEntry>)
    ensures |entries| == |images|
    ensures forall i :: 0 <= i < |images| ==>
              entries[i].id == images[i].id && entries[i].fileName == images[i].fileName
  {
    if images == [] then []
    else
      var n := |images| - 1;
      GetImages(images[..n]) + [ImageEntry(images[n].id, images[n].fileName)]
  }

  /** The annotations that belong to image `imageId`, in file order. */
  function GetObjects(anns: seq<Annotation>, imageId: int): (objs: seq<Annotation>)
    ensures |objs| <= |anns|
    ensures forall i :: 0 <= i < |objs| ==> objs[i].imageId == imageId
  {
    if anns == [] then []
    else
      var n := |anns| - 1;
      GetObjects(anns[..n], imageId) + (if anns[n].imageId == imageId then [anns[n]] else [])
  }

  /** `xs` is obtained from `ys` by deleting elements (relative order kept). */
  ghost predicate IsSubsequence<T>(xs: seq<T>, ys: seq<T>)
    decreases |ys|
  {
    if xs == [] then true
    else if ys == [] then false
    else if xs[|xs| - 1] == ys[|ys| - 1] then IsSubsequence(xs[..|xs| - 1], ys[..|ys| - 1])
    else IsSubsequence(xs, ys[..|ys| - 1])
  }

  /** Exactly the matching annotations are kept, each as often as it occurs. */
  lemma {:induction false} GetObjectsExact(anns: seq<Annotation>, imageId: int, a: Annotation)
    ensures multiset(GetObjects(anns, imageId))[a] == if a.imageId == imageId then multiset(anns)[a] else 0
    decreases |anns|
  {
    if anns != [] {
      var n := |anns| - 1;
      assert anns == anns[..n] + [anns[n]];
      GetObjectsExact(anns[..n], imageId, a);
    }
  }

  /** An annotation is returned iff it is in the record and belongs to the image. */
  lemma GetObjectsMembership(anns: seq<Annotation>, imageId: int, a: Annotation)
    ensures a in GetObjects(anns, imageId) <==> a in anns && a.imageId == imageId
  {
    GetObjectsExact(anns, imageId, a);
    assert a in GetObjects(anns, imageId) <==> multiset(GetObjects(anns, imageId))[a] > 0;
    assert a in anns <==> multiset(anns)[a] > 0;
  }

  /** The filter keeps the annotations' relative order. */
  lemma {:induction false} GetObjectsIsSubsequence(anns: seq<Annotation>, imageId: int)
    ensures IsSubsequence(GetObjects(anns, imageId), anns)
    decreases |anns|
  {
    if anns != [] {
      var n := |anns| - 1;
      var rest := GetObjects(anns[..n], imageId);
      GetObjectsIsSubsequence(anns[..n], imageId);
      if anns[n].imageId == imageId {
        assert GetObjects(anns, imageId) == rest + [anns[n]];
        assert (rest + [anns[n]])[..|rest|] == rest;
      } else {
        assert GetObjects(anns, imageId) == rest;

      }
    }
  }

  /** Filtering the result again by the same image id changes nothing. */
  lemma {:induction false} GetObjectsIdempotent(anns: seq<Annotation>, imageId: int)
    ensures GetObjects(GetObjects(anns, imageId), imageId) == GetObjects(anns, imageId)
    decreases |anns|
  {
    if anns != [] {
      var n := |anns| - 1;
      var rest := GetObjects(anns[..n], imageId);
      GetObjectsIdempotent(anns[..n], imageId);
      if anns[n].imageId == imageId {
        var objs := rest + [anns[n]];
        assert GetObjects(anns, imageId) == objs;
        assert objs[..|objs| - 1] == rest;
        assert objs[|objs| - 1] == anns[n];
        assert GetObjects(objs, imageId) == GetObjects(rest, imageId) + [anns[n]];
      } else {
        assert GetObjects(anns, imageId) == rest + [];
        assert rest + [] == rest;
      }
    }
  }

  /** The filter distributes over concatenation of annotation arrays. */
  lemma {:induction false} GetObjectsAppend(a: seq<Annotation>, b: seq<Annotation>, imageId: int)
    ensures GetObjects(a + b, imageId) == GetObjects(a, imageId) + GetObjects(b, imageId)
    decreases |b|
  {
    if b == [] {
      assert a + b == a;
    } else {
      var n := |b| - 1;
      assert (a + b)[..|a + b| - 1] == a + b[..n];
      GetObjectsAppend(a, b[..n], imageId);
    }
  }
}

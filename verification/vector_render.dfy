/** The prepare system of the vector plugin (`prepare_vector_images`): the
    extracted instances are sorted by depth and then by asset handle, and
    one Middle-layer render command is sent for every instance whose asset
    the render world knows. */
module VectorRender {
  import opened Common
  import opened VectorImage

  // ---------------------------------------------------------------------
  // The sort key
  // ---------------------------------------------------------------------

  /** What the comparator looks at: the translation's z, then the handle. */
  datatype SortKey = SortKey(z: real, handle: HandleId)

  function KeyOf(inst: ExtractedInstance): SortKey
  {
    SortKey(inst.transform.translation.z, inst.handle)
  }

  /** The comparator: by z, and by handle id when the z values are equal.
      Depths are totally ordered reals here (see README for NaN). */
  predicate KeyLe(a: SortKey, b: SortKey)
  {
    a.z < b.z || (a.z == b.z && a.handle <= b.handle)
  }

  predicate SortedByKey(s: seq<ExtractedInstance>)
  {
    forall i, j {:trigger KeyLe(KeyOf(s[i]), KeyOf(s[j]))} :: 0 <= i < j < |s| ==> KeyLe(KeyOf(s[i]), KeyOf(s[j]))
  }

  /** The comparator is a total preorder on instances, and equal keys in
      both directions are the same key. */
  lemma {:induction false} KeyLeOrder(a: SortKey, b: SortKey, c: SortKey)
    ensures KeyLe(a, a)
    ensures KeyLe(a, b) || KeyLe(b, a)
    ensures KeyLe(a, b) && KeyLe(b, c) ==> KeyLe(a, c)
    ensures KeyLe(a, b) && KeyLe(b, a) ==> a == b
  {
  }

  // ---------------------------------------------------------------------
  // Sorting
  // ---------------------------------------------------------------------

  /** Putting an element with a key no larger than any key of a sorted list
      in front of it keeps it sorted. */
  lemma {:induction false} ConsSorted(y: ExtractedInstance, t: seq<ExtractedInstance>)
    requires SortedByKey(t)
    requires forall j :: 0 <= j < |t| ==> KeyLe(KeyOf(y), KeyOf(t[j]))
    ensures SortedByKey([y] + t)
  {
    forall i, j | 0 <= i < j < |[y] + t|
      ensures KeyLe(KeyOf(([y] + t)[i]), KeyOf(([y] + t)[j]))
    {
      if i == 0 {
        assert ([y] + t)[j] == t[j - 1];
      } else {
        assert ([y] + t)[i] == t[i - 1] && ([y] + t)[j] == t[j - 1];
      }
    }
  }

  /** Insert `x` into a sorted list after every element with a smaller key. */
  function Insert(x: ExtractedInstance, s: seq<ExtractedInstance>): (r: seq<ExtractedInstance>)
    requires SortedByKey(s)
    ensures SortedByKey(r)
    ensures multiset(r) == multiset(s) + multiset{x}
    decreases |s|
  {
    if s == [] then [x]
    else if KeyLe(KeyOf(x), KeyOf(s[0])) then
      assert forall j :: 0 <= j < |s| ==> KeyLe(KeyOf(x), KeyOf(s[j])) by {
        forall j | 0 <= j < |s|
          ensures KeyLe(KeyOf(x), KeyOf(s[j]))
        {
          if j > 0 {
            assert KeyLe(KeyOf(s[0]), KeyOf(s[j]));
            KeyLeOrder(KeyOf(x), KeyOf(s[0]), KeyOf(s[j]));
          }
        }
      }
      ConsSorted(x, s);
      [x] + s
    else
      assert SortedByKey(s[1..]) by { DropFirst(s); }
      var rest := Insert(x, s[1..]);
      InsertedAfterHead(x, s, rest);
      [s[0]] + rest
  }

  /** When `x` goes after the head of `s`, the head stays in front of the
      insertion into the tail. */
  lemma {:induction false} InsertedAfterHead(x: ExtractedInstance, s: seq<ExtractedInstance>, rest: seq<ExtractedInstance>)
    requires SortedByKey(s) && s != [] && !KeyLe(KeyOf(x), KeyOf(s[0]))
    requires SortedByKey(rest) && multiset(rest) == multiset(s[1..]) + multiset{x}
    ensures SortedByKey([s[0]] + rest)
    ensures multiset([s[0]] + rest) == multiset(s) + multiset{x}
  {
    assert s == [s[0]] + s[1..];
    forall j | 0 <= j < |rest|
      ensures KeyLe(KeyOf(s[0]), KeyOf(rest[j]))
    {
      assert rest[j] in multiset(rest);
      if rest[j] == x {
        KeyLeOrder(KeyOf(x), KeyOf(s[0]), KeyOf(s[0]));
      } else {
        assert rest[j] in multiset(s[1..]);
        var m :| 0 <= m < |s[1..]| && s[1..][m] == rest[j];
        assert KeyLe(KeyOf(s[0]), KeyOf(s[m + 1]));
      }
    }
    ConsSorted(s[0], rest);
  }

  /** The order `sort_unstable_by` leaves the instances in: sorted by the
      comparator, and a permutation of the list it was given. */
  function SortByKey(s: seq<ExtractedInstance>): (r: seq<ExtractedInstance>)
    ensures SortedByKey(r)
    ensures multiset(r) == multiset(s)
    decreases |s|
  {
    if s == [] then []
    else
      assert s == [s[0]] + s[1..];
      Insert(s[0], SortByKey(s[1..]))
  }

  /** Removing one element keeps a list sorted and removes one occurrence
      from its multiset. */
  lemma {:induction false} DropAt(b: seq<ExtractedInstance>, k: nat)
    requires SortedByKey(b) && k < |b|
    ensures SortedByKey(b[..k] + b[k + 1..])
    ensures multiset(b[..k] + b[k + 1..]) == multiset(b) - multiset{b[k]}
  {
    var b' := b[..k] + b[k + 1..];
    assert b == b[..k] + [b[k]] + b[k + 1..];
    assert multiset(b) == multiset(b[..k]) + multiset{b[k]} + multiset(b[k + 1..]);
    forall i, j | 0 <= i < j < |b'|
      ensures KeyLe(KeyOf(b'[i]), KeyOf(b'[j]))
    {
      var i' := if i < k then i else i + 1;
      var j' := if j < k then j else j + 1;
      assert b'[i] == b[i'] && b'[j] == b[j'];
    }
  }

  /** In a sorted list whose first key is at least `c`, every element up
      to one with key `c` has key `c`. */
  lemma {:induction false} KeyPrefix(b: seq<ExtractedInstance>, k: nat, c: SortKey)
    requires SortedByKey(b) && k < |b|
    requires KeyOf(b[k]) == c && KeyLe(c, KeyOf(b[0]))
    ensures forall i :: 0 <= i <= k ==> KeyOf(b[i]) == c
  {
    forall i | 0 <= i <= k
      ensures KeyOf(b[i]) == c
    {
      if 0 < i < k {
        KeyLeOrder(KeyOf(b[i]), KeyOf(b[k]), c);
      }
      KeyLeOrder(c, KeyOf(b[0]), KeyOf(b[i]));
      KeyLeOrder(KeyOf(b[i]), c, c);
    }
  }

  /** Any two sorted permutations of the same instances have the same key
      at every position: an unstable sort may reorder only instances with
      equal z and equal handle. */
  lemma {:induction false} SortedPermutationsAgreeOnKeys(a: seq<ExtractedInstance>, b: seq<ExtractedInstance>)
    requires SortedByKey(a) && SortedByKey(b)
    requires multiset(a) == multiset(b)
    ensures |a| == |b|
    ensures forall i :: 0 <= i < |a| ==> KeyOf(a[i]) == KeyOf(b[i])
    decreases |a|
  {
    assert |a| == |multiset(a)| == |multiset(b)| == |b|;
    if a != [] {
      var k := HeadPosition(a, b);
      DropHeads(a, b, k);
      SortedPermutationsAgreeOnKeys(a[1..], b[..k] + b[k + 1..]);
      ShiftKeys(a, b, k, KeyOf(a[0]));
    }
  }

  /** Dropping the head of `a` and its occurrence at `k` in `b` leaves two
      sorted permutations of each other. */
  lemma {:induction false} DropHeads(a: seq<ExtractedInstance>, b: seq<ExtractedInstance>, k: nat)
    requires SortedByKey(a) && SortedByKey(b)
    requires multiset(a) == multiset(b) && a != []
    requires k < |b| && b[k] == a[0]
    ensures SortedByKey(a[1..]) && SortedByKey(b[..k] + b[k + 1..])
    ensures multiset(a[1..]) == multiset(b[..k] + b[k + 1..])
  {
    DropAt(b, k);
    DropFirst(a);
  }

  /** Dropping the head keeps a list sorted and removes the head from its
      multiset. */
  lemma {:induction false} DropFirst(a: seq<ExtractedInstance>)
    requires SortedByKey(a) && a != []
    ensures SortedByKey(a[1..])
    ensures multiset(a[1..]) == multiset(a) - multiset{a[0]}
  {
    assert a == [a[0]] + a[1..];
    forall i, j | 0 <= i < j < |a[1..]|
      ensures KeyLe(KeyOf(a[1..][i]), KeyOf(a[1..][j]))
    {
      assert a[1..][i] == a[i + 1] && a[1..][j] == a[j + 1];
    }
  }

  /** Where the head of `a` sits in `b`: every element of `b` up to there
      has the head's key, the least key of both lists. */
  lemma {:induction false} HeadPosition(a: seq<ExtractedInstance>, b: seq<ExtractedInstance>) returns (k: nat)
    requires SortedByKey(a) && SortedByKey(b)
    requires multiset(a) == multiset(b) && a != []
    ensures k < |b| && b[k] == a[0]
    ensures forall i :: 0 <= i <= k ==> KeyOf(b[i]) == KeyOf(a[0])
  {
    var c := KeyOf(a[0]);
    assert a[0] in multiset(b) by { assert a[0] in multiset(a); }
    k :| 0 <= k < |b| && b[k] == a[0];
    assert b[0] in multiset(a) by { assert b[0] in multiset(b); }
    var m :| 0 <= m < |a| && a[m] == b[0];
    assert KeyLe(c, KeyOf(b[0])) by {
      if m > 0 { assert KeyLe(KeyOf(a[0]), KeyOf(a[m])); }
    }
    KeyPrefix(b, k, c);
  }

  /** The last step of the argument above: `a` and `b` agree on keys when
      `a` without its head and `b` without its element `k` do, and the head
      of `a` and the elements of `b` up to `k` all have key `c`. */
  lemma {:induction false} ShiftKeys(a: seq<ExtractedInstance>, b: seq<ExtractedInstance>, k: nat, c: SortKey)
    requires |a| == |b| && k < |b|
    requires KeyOf(a[0]) == c && forall i :: 0 <= i <= k ==> KeyOf(b[i]) == c
    requires var b' := b[..k] + b[k + 1..];
      forall i :: 0 <= i < |a[1..]| ==> KeyOf(a[1..][i]) == KeyOf(b'[i])
    ensures forall i :: 0 <= i < |a| ==> KeyOf(a[i]) == KeyOf(b[i])
  {
    var b' := b[..k] + b[k + 1..];
    forall i | 0 <= i < |a|
      ensures KeyOf(a[i]) == KeyOf(b[i])
    {
      if 0 < i <= k {
        assert a[1..][i - 1] == a[i] && b'[i - 1] == b[i - 1];
      } else if i > k {
        assert a[1..][i - 1] == a[i] && b'[i - 1] == b[i];
      }
    }
  }

  // ---------------------------------------------------------------------
  // Emission
  // ---------------------------------------------------------------------

  /** The command one instance with a known asset yields. */
  function SvgCommand(inst: ExtractedInstance, image: VectorImage): RenderCommand
  {
    RenderCommand(SvgImage(image.svg, inst.transform), Middle)
  }

  /** The render commands sent for a list of instances, in list order; an
      instance whose handle has no render asset is skipped. */
  function Emit(insts: seq<ExtractedInstance>, images: map<HandleId, VectorImage>): (r: seq<RenderCommand>)
    ensures |r| <= |insts|
    ensures forall i :: 0 <= i < |r| ==> r[i].layer == Middle && r[i].kind.SvgImage?
    ensures forall c :: c in r ==>
      exists x :: x in insts && x.handle in images && c == SvgCommand(x, images[x.handle])
    ensures |r| == |insts| <==> forall j :: 0 <= j < |insts| ==> insts[j].handle in images
    decreases |insts|
  {
    if insts == [] then []
    else
      var rest := Emit(insts[1..], images);
      assert forall x :: x in insts[1..] ==> x in insts;
      if insts[0].handle in images then [SvgCommand(insts[0], images[insts[0].handle])] + rest
      else rest
  }

  /** Emission distributes over concatenation, so commands come out in the
      order of the instances they are made from. */
  lemma {:induction false} EmitAppend(a: seq<ExtractedInstance>, b: seq<ExtractedInstance>, images: map<HandleId, VectorImage>)
    ensures Emit(a + b, images) == Emit(a, images) + Emit(b, images)
    decreases |a|
  {
    if a == [] {
      assert a + b == b;
    } else {
      assert (a + b)[1..] == a[1..] + b;
      EmitAppend(a[1..], b, images);
    }
  }

  /** One instance yields one command when its asset is known, else none. */
  lemma {:induction false} EmitSingle(x: ExtractedInstance, images: map<HandleId, VectorImage>)
    ensures Emit([x], images) == if x.handle in images then [SvgCommand(x, images[x.handle])] else []
  {
  }

  /** `prepare_vector_images`: sort the instance list in place, then send
      the commands for it in the sorted order. */
  method PrepareVectorImages(insts: seq<ExtractedInstance>, images: map<HandleId, VectorImage>)
    returns (sorted: seq<ExtractedInstance>, commands: seq<RenderCommand>)
    ensures SortedByKey(sorted) && multiset(sorted) == multiset(insts)
    ensures commands == Emit(sorted, images)
    ensures |commands| <= |insts|
  {
    sorted := SortByKey(insts);
    assert |sorted| == |multiset(sorted)| == |multiset(insts)| == |insts|;
    commands := Emit(sorted, images);
  }

  /** Whatever order among equal keys the sort picks, the same number of
      commands is sent, and each position carries the same z and handle. */
  lemma {:induction false} PrepareDeterminedUpToEqualKeys(a: seq<ExtractedInstance>, b: seq<ExtractedInstance>, images: map<HandleId, VectorImage>)
    requires SortedByKey(a) && SortedByKey(b) && multiset(a) == multiset(b)
    ensures |a| == |b|
    ensures forall i :: 0 <= i < |a| ==> a[i].handle == b[i].handle && a[i].transform.translation.z == b[i].transform.translation.z
    ensures |Emit(a, images)| == |Emit(b, images)|
  {
    SortedPermutationsAgreeOnKeys(a, b);
    EmitLengthByHandles(a, b, images);
  }

  /** The number of commands depends only on the handles, position by
      position. */
  lemma {:induction false} EmitLengthByHandles(a: seq<ExtractedInstance>, b: seq<ExtractedInstance>, images: map<HandleId, VectorImage>)
    requires |a| == |b| && forall i :: 0 <= i < |a| ==> a[i].handle == b[i].handle
    ensures |Emit(a, images)| == |Emit(b, images)|
    decreases |a|
  {
    if a != [] {
      EmitLengthByHandles(a[1..], b[1..], images);
    }
  }
}

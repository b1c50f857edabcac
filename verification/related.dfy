/**
 * Extraction of related-document ids from a repeated link field: the loops
 * that keep the ids of the links of one type that are not broken, in
 * authoring order and with duplicates, before the batched fetch.
 */
module Related {
  import opened Content

  /** The loops' test: the link has the expected type and is not broken. */
  predicate Kept(l: Link, linkType: string) {
    l.linkType == linkType && !l.broken
  }

  /** The kept ids, built the way the loops build them: by appending. */
  function RelatedIds(links: seq<Link>, linkType: string): (ids: seq<string>)
    ensures |ids| <= |links|
    ensures forall k :: 0 <= k < |ids| ==>
      exists i :: 0 <= i < |links| && Kept(links[i], linkType) && links[i].id == ids[k]
  {
    if |links| == 0 then []
    else
      var init := links[..|links| - 1];
      var last := links[|links| - 1];
      assert forall i :: 0 <= i < |init| ==> init[i] == links[i];
      RelatedIds(init, linkType) + (if Kept(last, linkType) then [last.id] else [])
  }

  /**
   * The positions of the kept links, in increasing order: a witness that
   * the extracted ids are exactly the ids of the kept links, in authoring
   * order, every kept link taken and nothing else.
   */
  function KeptIndices(links: seq<Link>, linkType: string): (idx: seq<int>)
    ensures |idx| == |RelatedIds(links, linkType)|
    ensures forall k :: 0 <= k < |idx| ==> 0 <= idx[k] < |links|
    ensures forall k, m :: 0 <= k < m < |idx| ==> idx[k] < idx[m]
    ensures forall k :: 0 <= k < |idx| ==>
      Kept(links[idx[k]], linkType) && RelatedIds(links, linkType)[k] == links[idx[k]].id
    ensures forall i :: 0 <= i < |links| && Kept(links[i], linkType) ==> i in idx
  {
    if |links| == 0 then []
    else
      var n := |links| - 1;
      var init := links[..n];
      assert forall i :: 0 <= i < n ==> init[i] == links[i];
      KeptIndices(init, linkType) + (if Kept(links[n], linkType) then [n] else [])
  }

  /** An id is extracted exactly when some kept link carries it. */
  lemma {:induction false} InRelatedIds(links: seq<Link>, linkType: string, x: string)
    ensures x in RelatedIds(links, linkType) <==>
      exists i :: 0 <= i < |links| && Kept(links[i], linkType) && links[i].id == x
  {
    var ids, idx := RelatedIds(links, linkType), KeptIndices(links, linkType);
    if exists i :: 0 <= i < |links| && Kept(links[i], linkType) && links[i].id == x {
      var i :| 0 <= i < |links| && Kept(links[i], linkType) && links[i].id == x;
      assert i in idx;
      var k :| 0 <= k < |idx| && idx[k] == i;
      assert ids[k] == x;
    }
  }

  /** Extraction distributes over concatenation of link lists. */
  lemma {:induction false} RelatedIdsAppend(a: seq<Link>, b: seq<Link>, linkType: string)
    ensures RelatedIds(a + b, linkType) == RelatedIds(a, linkType) + RelatedIds(b, linkType)
    decreases |b|
  {
    if |b| == 0 {
      assert a + b == a;
    } else {
      var n := |b| - 1;
      assert (a + b)[..|a + b| - 1] == a + b[..n];
      assert (a + b)[|a + b| - 1] == b[n];
      RelatedIdsAppend(a, b[..n], linkType);
    }
  }

  /** The loop itself: walk the links once, appending each kept id. */
  method CollectRelatedIds(links: seq<Link>, linkType: string) returns (ids: seq<string>)
    ensures ids == RelatedIds(links, linkType)
  {
    ids := [];
    var i := 0;
    while i < |links|
      invariant 0 <= i <= |links|
      invariant ids == RelatedIds(links[..i], linkType)
    {
      var link := links[i];
      assert links[..i + 1][..i] == links[..i];
      if link.linkType == linkType && !link.broken {
        ids := ids + [link.id];
      }
      i := i + 1;
    }
    assert links[..|links|] == links;
  }
}

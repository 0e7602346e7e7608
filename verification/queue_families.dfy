/** Queue-family discovery (`QueueFamilyIndices` and `findQueueFamilies`):
    which queue family the program takes for graphics commands and which for
    presentation to the window surface. */
module QueueFamilies {
  import opened Common

  /** One entry of `vkGetPhysicalDeviceQueueFamilyProperties`: whether its
      flags hold `VK_QUEUE_GRAPHICS_BIT`, and what
      `vkGetPhysicalDeviceSurfaceSupportKHR` reports for it and the surface. */
  datatype QueueFamily = QueueFamily(graphics: bool, presentSupport: bool)

  /** The two optional family indices; complete when both hold a value.
      Nothing requires the two to differ. */
  datatype QueueFamilyIndices = QueueFamilyIndices(graphicsFamily: Option<nat>, presentFamily: Option<nat>) {
    predicate IsComplete() {
      graphicsFamily.Some? && presentFamily.Some?
    }
  }

  /** A default-constructed `QueueFamilyIndices`: both optionals empty. */
  const NoIndices := QueueFamilyIndices(None, None)

  lemma DefaultIndicesIncomplete()
    ensures !NoIndices.IsComplete()
    ensures QueueFamilyIndices(Some(0), Some(0)).IsComplete()
  {
  }

  datatype Capability = Graphics | Present

  predicate Has(family: QueueFamily, c: Capability) {
    match c
    case Graphics => family.graphics
    case Present => family.presentSupport
  }

  /** Each index present in `indices` names a family of `families` with
      the capability it stands for. */
  predicate NamesCapableFamilies(families: seq<QueueFamily>, indices: QueueFamilyIndices) {
    && (indices.graphicsFamily.Some? ==>
          indices.graphicsFamily.value < |families| && families[indices.graphicsFamily.value].graphics)
    && (indices.presentFamily.Some? ==>
          indices.presentFamily.value < |families| && families[indices.presentFamily.value].presentSupport)
  }

  /** The left-to-right scan of `findQueueFamilies`, from family `i` on with
      the indices `acc` found so far: a family with the capability overwrites
      the stored index, and the scan stops as soon as both are set. */
  function ScanFrom(families: seq<QueueFamily>, i: nat, acc: QueueFamilyIndices): (r: QueueFamilyIndices)
    requires i <= |families|
    ensures NamesCapableFamilies(families, acc) ==> NamesCapableFamilies(families, r)
    ensures acc.IsComplete() ==> r.IsComplete()
    decreases |families| - i
  {
    if i == |families| then acc
    else
      var graphics := if families[i].graphics then Some(i) else acc.graphicsFamily;
      var present := if families[i].presentSupport then Some(i) else acc.presentFamily;
      var next := QueueFamilyIndices(graphics, present);
      if next.IsComplete() then next else ScanFrom(families, i + 1, next)
  }

  /** `findQueueFamilies`: each index it reports names a family with the
      needed capability. */
  function FindQueueFamilies(families: seq<QueueFamily>): (r: QueueFamilyIndices)
    ensures NamesCapableFamilies(families, r)
  {
    ScanFrom(families, 0, NoIndices)
  }

  // ---------------------------------------------------------------------
  // A declarative description of the scan's result.

  /** The last index of `prefix` whose family has capability `c`. */
  function LastWith(prefix: seq<QueueFamily>, c: Capability): (r: Option<nat>)
    ensures r.Some? ==> r.value < |prefix| && Has(prefix[r.value], c)
    ensures r.Some? ==> forall j :: r.value < j < |prefix| ==> !Has(prefix[j], c)
    ensures r.None? <==> forall j :: 0 <= j < |prefix| ==> !Has(prefix[j], c)
  {
    if |prefix| == 0 then None
    else if Has(prefix[|prefix| - 1], c) then Some(|prefix| - 1)
    else LastWith(prefix[..|prefix| - 1], c)
  }

  /** Some family of `prefix` has capability `c`. */
  predicate Offers(prefix: seq<QueueFamily>, c: Capability) {
    exists j :: 0 <= j < |prefix| && Has(prefix[j], c)
  }

  /** The first `n` families together offer graphics and presentation. */
  predicate Covers(families: seq<QueueFamily>, n: nat)
    requires n <= |families|
  {
    Offers(families[..n], Graphics) && Offers(families[..n], Present)
  }

  /** The indices a scan of exactly the first `n` families would hold: the
      last graphics family and the last presenting family among them. */
  function IndicesOf(families: seq<QueueFamily>, n: nat): QueueFamilyIndices
    requires n <= |families|
  {
    QueueFamilyIndices(LastWith(families[..n], Graphics), LastWith(families[..n], Present))
  }

  lemma {:induction false} LastWithStep(families: seq<QueueFamily>, i: nat, c: Capability)
    requires i < |families|
    ensures LastWith(families[..i + 1], c)
         == if Has(families[i], c) then Some(i) else LastWith(families[..i], c)
  {
    assert families[..i + 1][..i] == families[..i];
  }

  /** The scan from position `i`, entered with the indices of the first `i`
      families and not yet complete, stops at the shortest covering prefix
      (or runs to the end) and returns that prefix's indices. */
  lemma {:induction false} ScanFromMeetsReference(families: seq<QueueFamily>, i: nat, acc: QueueFamilyIndices)
    requires i <= |families|
    requires acc == IndicesOf(families, i)
    requires forall n :: 0 <= n <= i ==> !Covers(families, n)
    ensures var r := ScanFrom(families, i, acc);
      (r.IsComplete() ==>
         exists n :: i < n <= |families| && Covers(families, n) && r == IndicesOf(families, n)
           && forall m :: 0 <= m < n ==> !Covers(families, m))
      && (!r.IsComplete() ==>
         r == IndicesOf(families, |families|) && forall m :: 0 <= m <= |families| ==> !Covers(families, m))
    decreases |families| - i
  {
    if i == |families| {
      assert !acc.IsComplete() by {
        assert !Covers(families, i);
      }
    } else {
      LastWithStep(families, i, Graphics);
      LastWithStep(families, i, Present);
      var next := ScanFrom(families, i + 1, IndicesOf(families, i + 1));
      assert IndicesOf(families, i + 1).IsComplete() <==> Covers(families, i + 1);
      if !Covers(families, i + 1) {
        ScanFromMeetsReference(families, i + 1, IndicesOf(families, i + 1));
      }
    }
  }

  /** `findQueueFamilies` agrees with the declarative description: when it is
      complete it holds the indices of the shortest covering prefix, and
      otherwise it holds the last graphics and last presenting family of the
      whole list, at least one of which is absent. */
  lemma FindQueueFamiliesMeetsReference(families: seq<QueueFamily>)
    ensures var r := FindQueueFamilies(families);
      (r.IsComplete() ==>
         exists n :: 0 < n <= |families| && Covers(families, n) && r == IndicesOf(families, n)
           && forall m :: 0 <= m < n ==> !Covers(families, m))
      && (!r.IsComplete() ==> r == IndicesOf(families, |families|))
  {
    assert families[..0] == [];
    assert IndicesOf(families, 0) == NoIndices;
    ScanFromMeetsReference(families, 0, NoIndices);
  }

  /** The scan is complete exactly when some family has the graphics bit and
      some family supports presentation; then the graphics index names a
      graphics family, the present index a presenting family, both lie within
      the shortest covering prefix, and no later family of that prefix has
      the respective capability. */
  lemma FindQueueFamiliesCorrect(families: seq<QueueFamily>)
    ensures var r := FindQueueFamilies(families);
      && (r.IsComplete() <==> Offers(families, Graphics) && Offers(families, Present))
      && (r.IsComplete() ==>
           && r.graphicsFamily.value < |families| && families[r.graphicsFamily.value].graphics
           && r.presentFamily.value < |families| && families[r.presentFamily.value].presentSupport
           && exists n :: 0 < n <= |families| && Covers(families, n)
                && (forall m :: 0 <= m < n ==> !Covers(families, m))
                && r.graphicsFamily.value < n && r.presentFamily.value < n
                && (r.graphicsFamily.value == n - 1 || r.presentFamily.value == n - 1))
  {
    var r := FindQueueFamilies(families);
    FindQueueFamiliesMeetsReference(families);
    if r.IsComplete() {
      var n :| 0 < n <= |families| && Covers(families, n) && r == IndicesOf(families, n)
           && forall m :: 0 <= m < n ==> !Covers(families, m);
      assert Offers(families, Graphics) by {
        assert Has(families[r.graphicsFamily.value], Graphics);
      }
      assert Offers(families, Present) by {
        assert Has(families[r.presentFamily.value], Present);
      }
      ShortestCoverEndsAtAnIndex(families, n);
    } else {
      assert families[..|families|] == families;
    }
  }

  /** In the shortest covering prefix both indices lie inside it and its
      last family supplies at least one of them. */
  lemma ShortestCoverEndsAtAnIndex(families: seq<QueueFamily>, n: nat)
    requires 0 < n <= |families| && Covers(families, n) && !Covers(families, n - 1)
    ensures var r := IndicesOf(families, n);
      && r.IsComplete() && r.graphicsFamily.value < n && r.presentFamily.value < n
      && (r.graphicsFamily.value == n - 1 || r.presentFamily.value == n - 1)
  {
    LastWithStep(families, n - 1, Graphics);
    LastWithStep(families, n - 1, Present);
  }

}

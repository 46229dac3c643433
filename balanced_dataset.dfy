/**
 * Dataset preparation of the balanced training script: mapping folder
 * names to the nine target classes, and balancing the per-class image
 * lists towards a common target size by repeating images of small classes
 * and sampling down very large ones.
 */
module BalancedNpk {
  import opened Optional
  import opened Text

  /** `CLASS_MAPPING`: standard folder names and their alternates. */
  const ClassMapping: map<string, string> := map[
    "healthy" := "healthy",
    "nitrogen-N" := "nitrogen-N",
    "phosphorus-P" := "phosphorus-P",
    "potasium-K" := "potasium-K",
    "boron-B" := "boron-B",
    "calcium-Ca" := "calcium-Ca",
    "iron-Fe" := "iron-Fe",
    "magnesium-Mg" := "magnesium-Mg",
    "manganese-Mn" := "manganese-Mn",
    "deficiency" := "nitrogen-N",
    "control" := "healthy",
    "-C" := "healthy",
    "-P" := "phosphorus-P",
    "-P50" := "phosphorus-P",
    "Nitrogen" := "nitrogen-N",
    "Phosphorus" := "phosphorus-P",
    "Potassium" := "potasium-K",
    "N" := "nitrogen-N",
    "P" := "phosphorus-P",
    "K" := "potasium-K"
  ]

  /** `TARGET_CLASSES`, in the order the balancing visits them. */
  const TargetClasses: seq<string> := [
    "healthy", "nitrogen-N", "phosphorus-P", "potasium-K", "boron-B",
    "calcium-Ca", "iron-Fe", "magnesium-Mg", "manganese-Mn"
  ]

  /** `TARGET_SAMPLES_PER_CLASS` */
  const TargetSamples: nat := 500

  /** Every class the mapping produces is a target class. */
  lemma MappingIntoTargets()
    ensures forall name :: name in ClassMapping ==> ClassMapping[name] in TargetClasses
  {
  }

  /** `normalize_class_name`: the stripped folder name looked up as is, then
      lower-cased; `None` for a folder of no known class. */
  function NormalizeClassName(folder: string): (r: Option<string>)
    ensures r.Some? ==> r.value in TargetClasses
    ensures Strip(folder) in ClassMapping ==> r == Some(ClassMapping[Strip(folder)])
    ensures (Strip(folder) !in ClassMapping && Lower(Strip(folder)) in ClassMapping)
      ==> r == Some(ClassMapping[Lower(Strip(folder))])
    ensures r.None? <==> Strip(folder) !in ClassMapping && Lower(Strip(folder)) !in ClassMapping
  {
    MappingIntoTargets();
    var name := Strip(folder);
    if name in ClassMapping then Some(ClassMapping[name])
    else if Lower(name) in ClassMapping then Some(ClassMapping[Lower(name)])
    else None
  }

  type Image = string

  /** A Python dict from class to image list: its keys in insertion order
      and the mapping itself. */
  predicate WellFormed(order: seq<string>, images: map<string, seq<Image>>) {
    && (forall i, j :: 0 <= i < j < |order| ==> order[i] != order[j])
    && (forall c :: c in order ==> c in images)
    && (forall c :: c in images ==> c in order)
  }

  /** `[len(imgs) for imgs in balanced.values() if len(imgs) > 0]` */
  function NonEmptyCounts(order: seq<string>, images: map<string, seq<Image>>): (r: seq<nat>)
    requires forall c :: c in order ==> c in images
    ensures forall i :: 0 <= i < |r| ==> r[i] > 0
    ensures |r| == 0 <==> forall c :: c in order ==> images[c] == []
  {
    if |order| == 0 then []
    else
      var c := order[|order| - 1];
      NonEmptyCounts(order[..|order| - 1], images) + (if |images[c]| > 0 then [|images[c]|] else [])
  }

  predicate Sorted(s: seq<nat>) {
    forall i, j :: 0 <= i < j < |s| ==> s[i] <= s[j]
  }

  /** `x` placed into the sorted `s` before the first larger-or-equal element. */
  function Insert(x: nat, s: seq<nat>): (r: seq<nat>)
    requires Sorted(s)
    ensures |r| == |s| + 1
    ensures forall i :: 0 <= i < |r| ==> r[i] == x || r[i] in s
    ensures Sorted(r)
    ensures multiset(r) == multiset(s) + multiset{x}
  {
    if |s| == 0 then [x]
    else if x <= s[0] then [x] + s
    else
      var t := Insert(x, s[1..]);
      assert s == [s[0]] + s[1..];
      assert forall i :: 0 <= i < |t| ==> s[0] <= t[i];
      [s[0]] + t
  }

  /** The counts in ascending order, as `np.median` arranges them. */
  function Sort(s: seq<nat>): (r: seq<nat>)
    ensures Sorted(r)
    ensures multiset(r) == multiset(s)
    ensures |r| == |s|
  {
    if |s| == 0 then []
    else
      assert s == s[..|s| - 1] + [s[|s| - 1]];
      Insert(s[|s| - 1], Sort(s[..|s| - 1]))
  }

  /** `int(np.median(counts))` of sorted counts: the middle element, or the
      mean of the two middle ones truncated to an integer. */
  function Median(s: seq<nat>): (r: nat)
    requires |s| > 0 && Sorted(s)
    ensures s[0] <= r <= s[|s| - 1]
  {
    if |s| % 2 == 1 then s[|s| / 2]
    else (s[|s| / 2 - 1] + s[|s| / 2]) / 2
  }

  /** `max(TARGET_SAMPLES_PER_CLASS, int(np.median(counts)))` */
  function TargetCount(counts: seq<nat>): (r: nat)
    requires |counts| > 0
    ensures r >= TargetSamples && r >= Median(Sort(counts))
    ensures r == TargetSamples || r == Median(Sort(counts))
  {
    var m := Median(Sort(counts));
    if m >= TargetSamples then m else TargetSamples
  }

  /** The median lies between the smallest and the largest count. */
  lemma {:induction false} MedianWithinCounts(counts: seq<nat>)
    requires |counts| > 0
    ensures exists i :: 0 <= i < |counts| && counts[i] <= Median(Sort(counts))
    ensures exists i :: 0 <= i < |counts| && Median(Sort(counts)) <= counts[i]
  {
    var s := Sort(counts);
    assert s[0] in multiset(counts);
    assert s[|s| - 1] in multiset(counts);
    var i :| 0 <= i < |counts| && counts[i] == s[0];
    var j :| 0 <= j < |counts| && counts[j] == s[|s| - 1];
  }

  /** What balancing leaves for one target class with `original` images. */
  predicate BalancedClass(original: seq<Image>, result: seq<Image>, target: nat) {
    && (original == [] ==> result == [])
    && (original != [] ==> target <= |result| <= 2 * target)
    && (target <= |original| <= 2 * target ==> result == original)
    && (0 < |original| < target ==> |result| == target && result[..|original|] == original)
    && (|original| > 2 * target ==> |result| == target && multiset(result) <= multiset(original))
    && (forall x :: x in result ==> x in original)
  }

  /** `random.choices(imgs, k=needed)`: `needed` images drawn, with
      repetition, from a non-empty list; which ones is left open. */
  method Choices(imgs: seq<Image>, needed: nat) returns (extra: seq<Image>)
    requires imgs != []
    ensures |extra| == needed
    ensures forall x :: x in extra ==> x in imgs
  {
    extra := [];
    while |extra| < needed
      invariant |extra| <= needed
      invariant forall x :: x in extra ==> x in imgs
    {
      assert imgs[0] in imgs;
      var x :| x in imgs;
      extra := extra + [x];
    }
  }

  /** `random.sample(imgs, k)`: `k` images at distinct positions of the
      list; which ones is left open. */
  method Sample(imgs: seq<Image>, k: nat) returns (picked: seq<Image>)
    requires k <= |imgs|
    ensures |picked| == k
    ensures multiset(picked) <= multiset(imgs)
  {
    assert imgs == imgs[..k] + imgs[k..];
    assert multiset(imgs[..k]) <= multiset(imgs);
    picked :| |picked| == k && multiset(picked) <= multiset(imgs);
  }

  /** The fate of one target class: an empty list stays empty, a short one
      is extended by repeated images to the target, a list longer than twice
      the target is sampled down to the target, any other is kept. */
  method BalanceClass(current: seq<Image>, target: nat) returns (result: seq<Image>)
    ensures BalancedClass(current, result, target)
  {
    result := current;
    if |current| == 0 {
      // nothing to repeat: the class stays empty
    } else if |current| < target {
      var extra := Choices(current, target - |current|);
      result := current + extra;
      assert result[..|current|] == current;
    } else if |current| > target * 2 {
      result := Sample(current, target);
      assert forall x :: x in result ==> x in multiset(current);
    }
  }

  /** The target classes are nine distinct names. */
  lemma TargetsDistinct()
    ensures forall i, j :: 0 <= i < j < |TargetClasses| ==> TargetClasses[i] != TargetClasses[j]
  {
  }

  /** The loop of `oversample_minority_classes` over the target classes
      `targets`, on its own copy `balanced` of the dict. */
  method BalanceTargets(targets: seq<string>, images: map<string, seq<Image>>, target: nat)
    returns (r: Result<map<string, seq<Image>>>)
    requires forall i, j :: 0 <= i < j < |targets| ==> targets[i] != targets[j]
    ensures r.Err? <==> exists c :: c in targets && c !in images
    ensures r.Ok? ==> r.value.Keys == images.Keys
    ensures r.Ok? ==> forall c :: c in images && c !in targets ==> r.value[c] == images[c]
    ensures r.Ok? ==> forall c :: c in targets ==> BalancedClass(images[c], r.value[c], target)
  {
    var balanced := images;
    var t := 0;
    while t < |targets|
      invariant 0 <= t <= |targets|
      invariant forall i :: 0 <= i < t ==> targets[i] in images
      invariant balanced.Keys == images.Keys
      invariant forall c :: c in images && c !in targets[..t] ==> balanced[c] == images[c]
      invariant forall c :: c in targets[..t] ==> BalancedClass(images[c], balanced[c], target)
    {
      var cls := targets[t];
      if cls !in balanced {
        return Err("KeyError: " + cls);
      }
      assert cls !in targets[..t];
      var result := BalanceClass(balanced[cls], target);
      balanced := balanced[cls := result];
      assert targets[..t + 1] == targets[..t] + [cls];
      t := t + 1;
    }
    assert targets[..t] == targets;
    return Ok(balanced);
  }

  /** `oversample_minority_classes`: every target class with images is
      brought to between the target and twice the target; a missing
      target class raises `KeyError` once any class has images. The input
      lists are values here, so the caller's dict is left as it was. */
  method OversampleMinorityClasses(order: seq<string>, images: map<string, seq<Image>>)
    returns (r: Result<map<string, seq<Image>>>)
    requires WellFormed(order, images)
    ensures NonEmptyCounts(order, images) == [] ==> r == Ok(images)
    ensures r.Err? <==> NonEmptyCounts(order, images) != [] && exists c :: c in TargetClasses && c !in images
    ensures r.Ok? ==> r.value.Keys == images.Keys
    ensures r.Ok? ==> forall c :: c in images && c !in TargetClasses ==> r.value[c] == images[c]
    ensures r.Ok? && NonEmptyCounts(order, images) != [] ==>
      forall c :: c in TargetClasses ==>
        BalancedClass(images[c], r.value[c], TargetCount(NonEmptyCounts(order, images)))
  {
    var counts := NonEmptyCounts(order, images);
    if counts == [] {
      return Ok(images);
    }
    TargetsDistinct();
    r := BalanceTargets(TargetClasses, images, TargetCount(counts));
  }
}

/**
 * The project descriptor that `Xcodeproj::Project.open` loads, reduced to
 * what `remove_demo_project` looks at: the native targets with their
 * product types, the children of the main group with their display names,
 * and the product references with their paths. Each lookup takes the first
 * match; each removal takes that one node out of its list.
 */
module Descriptor {
  import opened Wrappers
  import opened Strings
  import opened Errors

  datatype Target = Target(name: string, productType: string)
  datatype Group = Group(displayName: string)
  datatype Product = Product(path: string)

  datatype Project = Project(targets: seq<Target>, mainGroupChildren: seq<Group>, products: seq<Product>)

  /** The product type of an application target. */
  const ApplicationProductType: string := "com.apple.product-type.application"

  /** The index of the first element satisfying `p` (Ruby's `find`, or `select { .. }.first`). */
  function FirstMatch<T>(xs: seq<T>, p: T -> bool): (r: Option<nat>)
    ensures r.Some? ==> r.value < |xs| && p(xs[r.value])
    ensures r.Some? ==> forall k :: 0 <= k < r.value ==> !p(xs[k])
    ensures r.None? <==> forall k :: 0 <= k < |xs| ==> !p(xs[k])
  {
    if |xs| == 0 then None
    else if p(xs[0]) then Some(0)
    else
      match FirstMatch(xs[1..], p)
      case None => None
      case Some(i) => Some(i + 1)
  }

  /** `xs` without its element at `i`: `remove_from_project` on that node. */
  function RemoveAt<T>(xs: seq<T>, i: nat): (r: seq<T>)
    requires i < |xs|
    ensures |r| == |xs| - 1
    ensures forall k :: 0 <= k < i ==> r[k] == xs[k]
    ensures forall k :: i <= k < |r| ==> r[k] == xs[k + 1]
    ensures multiset(r) + multiset{xs[i]} == multiset(xs)
  {
    assert xs == xs[..i] + [xs[i]] + xs[i + 1..];
    xs[..i] + xs[i + 1..]
  }

  predicate IsApplication(t: Target)
  {
    t.productType == ApplicationProductType
  }

  /** The group line 53 looks for: its display name ends with the pod name. */
  predicate IsAppGroup(pod: string, g: Group)
  {
    EndsWith(g.displayName, pod)
  }

  /** The product line 57 looks for: its path equals `appPath`. */
  predicate IsAppProduct(appPath: string, pr: Product)
  {
    pr.path == appPath
  }

  /** Line 47: the application target. */
  function AppTarget(d: Project): Option<nat>
  {
    FirstMatch(d.targets, IsApplication)
  }

  /** Line 53: the main-group child named after the pod. */
  function AppGroup(d: Project, pod: string): Option<nat>
  {
    FirstMatch(d.mainGroupChildren, g => IsAppGroup(pod, g))
  }

  /** Line 57: the product reference of the app. */
  function AppProduct(d: Project, appPath: string): Option<nat>
  {
    FirstMatch(d.products, pr => IsAppProduct(appPath, pr))
  }

  /** Where demo removal stopped: all three nodes removed, or a crash on a nil lookup. */
  datatype Removal = Removed(project: Project) | Crashed(project: Project, error: Error)

  /**
   * `remove_demo_project` on the in-memory descriptor: remove the first
   * application target, then the first main-group child whose display
   * name ends with `pod`, then the first product whose path is `appPath`.
   * A lookup that finds nothing gives nil, and calling `remove_from_project`
   * on it raises; the removals already done stay done.
   */
  function RemoveDemo(d: Project, pod: string, appPath: string): (o: Removal)
    // nodes are only ever taken out, never added
    ensures multiset(o.project.targets) <= multiset(d.targets)
    ensures multiset(o.project.mainGroupChildren) <= multiset(d.mainGroupChildren)
    ensures multiset(o.project.products) <= multiset(d.products)
    // on success, exactly one node is gone from each list
    ensures o.Removed? ==>
      && |o.project.targets| == |d.targets| - 1
      && |o.project.mainGroupChildren| == |d.mainGroupChildren| - 1
      && |o.project.products| == |d.products| - 1
    ensures o.Crashed? ==> o.error == NoApplicationTarget || o.error == NoAppGroup || o.error == NoAppProduct
  {
    match AppTarget(d)
    case None => Crashed(d, NoApplicationTarget)
    case Some(i) =>
      var d1 := d.(targets := RemoveAt(d.targets, i));
      match AppGroup(d1, pod)
      case None => Crashed(d1, NoAppGroup)
      case Some(j) =>
        var d2 := d1.(mainGroupChildren := RemoveAt(d1.mainGroupChildren, j));
        match AppProduct(d2, appPath)
        case None => Crashed(d2, NoAppProduct)
        case Some(k) => Removed(d2.(products := RemoveAt(d2.products, k)))
  }

  /**
   * Demo removal succeeds exactly when each of the three lists holds a
   * match, and then it has removed precisely the first match of each.
   */
  lemma RemoveDemoSucceeds(d: Project, pod: string, appPath: string)
    ensures RemoveDemo(d, pod, appPath).Removed? <==>
      (exists i :: 0 <= i < |d.targets| && IsApplication(d.targets[i]))
      && (exists j :: 0 <= j < |d.mainGroupChildren| && IsAppGroup(pod, d.mainGroupChildren[j]))
      && (exists k :: 0 <= k < |d.products| && IsAppProduct(appPath, d.products[k]))
    ensures RemoveDemo(d, pod, appPath).Removed? ==>
      var i, j, k := AppTarget(d).value, AppGroup(d, pod).value, AppProduct(d, appPath).value;
      RemoveDemo(d, pod, appPath).project
        == Project(RemoveAt(d.targets, i), RemoveAt(d.mainGroupChildren, j), RemoveAt(d.products, k))
  {
    var ti, gj, pk := AppTarget(d), AppGroup(d, pod), AppProduct(d, appPath);
    if ti.Some? && gj.Some? {
      assert !(forall k :: 0 <= k < |d.mainGroupChildren| ==> !IsAppGroup(pod, d.mainGroupChildren[k]));
    }
    if ti.Some? && gj.Some? && pk.Some? {
      assert !(forall k :: 0 <= k < |d.products| ==> !IsAppProduct(appPath, d.products[k]));
    }
  }

  /**
   * The removal is not all-or-nothing: when no group matches, the
   * application target has already been removed and the groups and
   * products are as they were; when no product matches, the target and
   * the group have been removed and the products are as they were.
   */
  lemma RemoveDemoPartial(d: Project, pod: string, appPath: string)
    ensures var o := RemoveDemo(d, pod, appPath);
      o.Crashed? && o.error != NoApplicationTarget ==>
        |o.project.targets| == |d.targets| - 1
        && o.project.targets == RemoveAt(d.targets, AppTarget(d).value)
    ensures var o := RemoveDemo(d, pod, appPath);
      o.Crashed? && o.error == NoAppProduct ==>
        && |o.project.mainGroupChildren| == |d.mainGroupChildren| - 1
        && o.project.mainGroupChildren == RemoveAt(d.mainGroupChildren, AppGroup(d, pod).value)
        && o.project.products == d.products
        && forall k :: 0 <= k < |d.products| ==> !IsAppProduct(appPath, d.products[k])
    ensures var o := RemoveDemo(d, pod, appPath);
      o.Crashed? && o.error == NoAppGroup ==>
        && o.project.mainGroupChildren == d.mainGroupChildren && o.project.products == d.products
        && forall j :: 0 <= j < |d.mainGroupChildren| ==> !IsAppGroup(pod, d.mainGroupChildren[j])
    ensures var o := RemoveDemo(d, pod, appPath);
      o.Crashed? && o.error == NoApplicationTarget ==>
        o.project == d && forall i :: 0 <= i < |d.targets| ==> !IsApplication(d.targets[i])
  {
    match AppTarget(d)
    case None =>
    case Some(i) =>
      var d1 := d.(targets := RemoveAt(d.targets, i));
      assert AppGroup(d1, pod) == AppGroup(d, pod);
      match AppGroup(d1, pod)
      case None =>
      case Some(j) =>
        var d2 := d1.(mainGroupChildren := RemoveAt(d1.mainGroupChildren, j));
        assert AppProduct(d2, appPath) == AppProduct(d, appPath);
  }
}

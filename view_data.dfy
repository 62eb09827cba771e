/**
 * The view manager's descriptor records: `BundleInfo` (a bundle path and
 * whether content is loaded from a bundle) and `ViewInfo`, which extends it
 * with the view ID, its layer and the prefab path.  IDs are `IComparable`
 * enum values in the program and integers here.
 */
module ViewData {
  import opened Wrappers

  type Id = int

  /** `string.IsNullOrEmpty` on a nullable string. */
  predicate IsNullOrEmpty(s: Option<string>) {
    s == None || s == Some("")
  }

  datatype BundleInfo = BundleInfo(bundlePath: Option<string>, loadFromBundle: bool)

  /** The `BundleInfo` constructor: stores the path; `loadFromBundle` is set only for a non-empty path. */
  function NewBundleInfo(bundlePath: Option<string>): (info: BundleInfo)
    ensures info.bundlePath == bundlePath
    ensures info.loadFromBundle <==> bundlePath.Some? && |bundlePath.value| > 0
    ensures bundlePath == None || bundlePath == Some("") ==> !info.loadFromBundle
  {
    BundleInfo(bundlePath, !IsNullOrEmpty(bundlePath))
  }

  /** A `ViewInfo` is a `BundleInfo` (its base part) plus the view's own fields. */
  datatype ViewInfo = ViewInfo(viewId: Id, layerId: Id, viewPath: string, bundle: BundleInfo)
  {
    predicate LoadFromBundle() { bundle.loadFromBundle }
  }

  /** The `ViewInfo` constructor, whose bundle path defaults to "". */
  function NewViewInfo(viewId: Id, layerId: Id, viewPath: string, bundlePath: Option<string> := Some("")): (info: ViewInfo)
    ensures info.viewId == viewId && info.layerId == layerId && info.viewPath == viewPath
    ensures info.bundle.bundlePath == bundlePath
    ensures info.LoadFromBundle() <==> bundlePath.Some? && bundlePath.value != ""
  {
    ViewInfo(viewId, layerId, viewPath, NewBundleInfo(bundlePath))
  }

  /** With the default bundle path a view is loaded through `Resources`, not from a bundle. */
  lemma DefaultViewInfoIsLocal(viewId: Id, layerId: Id, viewPath: string)
    ensures !NewViewInfo(viewId, layerId, viewPath).LoadFromBundle()
    ensures NewViewInfo(viewId, layerId, viewPath).bundle == BundleInfo(Some(""), false)
  {
  }
}

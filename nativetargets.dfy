/** How a target kind is presented in the native-target section: the record
    class (`isa`) and the product-type tag. */
module NativeTargets {
  import opened Wrappers
  import opened Build

  const LegacyIsa: string := "PBXLegacyTarget"
  const NativeIsa: string := "PBXNativeTarget"
  const ToolType: string := "com.apple.product-type.tool"
  const StaticType: string := "com.apple.product-type.library.static"
  const DynamicType: string := "com.apple.product-type.library.dynamic"

  /** Custom targets are driven by an external command; every other kind is native. */
  function Isa(kind: TargetKind): (isa: string)
    ensures isa == LegacyIsa <==> kind == CustomTarget
    ensures isa == LegacyIsa || isa == NativeIsa
  {
    if kind == CustomTarget then LegacyIsa else NativeIsa
  }

  /** The `productType` line of a target: none for a custom target, a fixed tag
      for the three compiled kinds, and an error for any other kind. */
  function ProductType(kind: TargetKind, name: string): (r: Result<Option<string>>)
    ensures r.Err? <==> kind == Other
    ensures r.Err? ==> r.error == MesonException("Unknown target type for " + name)
    ensures r == Ok(None) <==> kind == CustomTarget
    ensures kind == Executable ==> r == Ok(Some(ToolType))
    ensures kind == StaticLibrary ==> r == Ok(Some(StaticType))
    ensures kind == SharedLibrary ==> r == Ok(Some(DynamicType))
  {
    match kind
    case CustomTarget => Ok(None)
    case Executable => Ok(Some(ToolType))
    case StaticLibrary => Ok(Some(StaticType))
    case SharedLibrary => Ok(Some(DynamicType))
    case Other => Err(MesonException("Unknown target type for " + name))
  }

  /** Distinct compiled kinds get distinct product types, so the tag identifies the kind. */
  lemma ProductTypeIdentifiesKind(k1: TargetKind, k2: TargetKind, n1: string, n2: string)
    requires ProductType(k1, n1).Ok? && ProductType(k2, n2).Ok?
    requires ProductType(k1, n1) == ProductType(k2, n2)
    ensures k1 == k2
  {
  }
}

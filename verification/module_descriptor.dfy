/** The identity of a Ballerina module (projects/ModuleDescriptor.java): its name and
    the descriptor of the package it belongs to, with the compilation id derived from
    them once, when the descriptor is made. */
module ModuleDescriptors {
  import opened Wrappers
  import opened JavaText

  /** An organisation name, which may be the anonymous one. */
  datatype PackageOrg = PackageOrg(value: string, anonymous: bool)

  /** A module name, by its text form; its own structure is not part of this model. */
  datatype ModuleName = ModuleName(text: string)

  datatype PackageDescriptor = PackageDescriptor(org: PackageOrg, name: string, version: string)

  /** The compiler's package id: the default package, or (org, name, version). */
  datatype PackageId = DefaultPackageId | PackageId(orgName: string, name: string, version: string)

  /** A module descriptor; `packageDesc` is null when it was made from its parts. */
  datatype ModuleDescriptor = ModuleDescriptor(
    moduleName: ModuleName, packageDesc: Option<PackageDescriptor>, moduleCompilationId: PackageId)

  /** The compilation id both constructors compute: the default id for the "." package
      of the anonymous organisation, otherwise the organisation, the module name and
      the version. */
  function CompilationId(packageName: string, org: PackageOrg, version: string, moduleName: ModuleName): (r: PackageId)
    ensures r == DefaultPackageId <==> packageName == "." && org.anonymous
    ensures r != DefaultPackageId ==> r.orgName == org.value && r.name == moduleName.text && r.version == version
  {
    if packageName == "." && org.anonymous then DefaultPackageId
    else PackageId(org.value, moduleName.text, version)
  }

  /** from(packageName, org, version, moduleName): the parts decide the compilation
      id, but no package descriptor is kept. */
  function FromParts(packageName: string, org: PackageOrg, version: string, moduleName: ModuleName)
    : (r: ModuleDescriptor)
    ensures r.moduleName == moduleName && r.packageDesc.None?
    ensures r.moduleCompilationId == DefaultPackageId <==> packageName == "." && org.anonymous
    ensures r.moduleCompilationId != DefaultPackageId ==>
      r.moduleCompilationId == PackageId(org.value, moduleName.text, version)
  {
    ModuleDescriptor(moduleName, None, CompilationId(packageName, org, version, moduleName))
  }

  /** from(moduleName, packageDescriptor). */
  function From(moduleName: ModuleName, packageDesc: PackageDescriptor): (r: ModuleDescriptor)
    ensures r.moduleName == moduleName && r.packageDesc == Some(packageDesc)
    ensures r.moduleCompilationId == DefaultPackageId <==> packageDesc.name == "." && packageDesc.org.anonymous
    ensures r.moduleCompilationId != DefaultPackageId ==>
      r.moduleCompilationId == PackageId(packageDesc.org.value, moduleName.text, packageDesc.version)
  {
    ModuleDescriptor(moduleName, Some(packageDesc),
      CompilationId(packageDesc.name, packageDesc.org, packageDesc.version, moduleName))
  }

  /** Both constructors agree on the compilation id for the same parts. */
  lemma SameIdEitherWay(moduleName: ModuleName, pd: PackageDescriptor)
    ensures From(moduleName, pd).moduleCompilationId == FromParts(pd.name, pd.org, pd.version, moduleName).moduleCompilationId
  {
  }

  /** name(): the module name. */
  function Name(d: ModuleDescriptor): ModuleName {
    d.moduleName
  }

  /** packageName(), org() and version() read the package descriptor; on a descriptor
      made from its parts they fail with a NullPointerException. */
  function PackageName(d: ModuleDescriptor): (r: Result<string, string>)
    ensures r.Failure? <==> d.packageDesc.None?
    ensures r.Success? ==> r.value == d.packageDesc.value.name
  {
    if d.packageDesc.None? then Failure("NullPointerException") else Success(d.packageDesc.value.name)
  }

  function Org(d: ModuleDescriptor): (r: Result<PackageOrg, string>)
    ensures r.Failure? <==> d.packageDesc.None?
    ensures r.Success? ==> r.value == d.packageDesc.value.org
  {
    if d.packageDesc.None? then Failure("NullPointerException") else Success(d.packageDesc.value.org)
  }

  function Version(d: ModuleDescriptor): (r: Result<string, string>)
    ensures r.Failure? <==> d.packageDesc.None?
    ensures r.Success? ==> r.value == d.packageDesc.value.version
  {
    if d.packageDesc.None? then Failure("NullPointerException") else Success(d.packageDesc.value.version)
  }

  /** A descriptor built from a package descriptor gives back that descriptor's parts. */
  lemma {:induction false} FromRoundTrip(moduleName: ModuleName, pd: PackageDescriptor)
    ensures var d := From(moduleName, pd);
      Name(d) == moduleName && PackageName(d) == Success(pd.name) && Org(d) == Success(pd.org)
      && Version(d) == Success(pd.version)
  {
  }

  /** equals: false for null, otherwise the module names and the package descriptors
      are compared; the compilation id is not. */
  function Equals(d: ModuleDescriptor, other: Option<ModuleDescriptor>): (r: bool)
    ensures r <==> other.Some? && other.value.moduleName == d.moduleName && other.value.packageDesc == d.packageDesc
  {
    if other.None? then false
    else if other.value == d then true
    else other.value.moduleName == d.moduleName && other.value.packageDesc == d.packageDesc
  }

  /** equals is an equivalence on descriptors. */
  lemma EqualsIsEquivalence(a: ModuleDescriptor, b: ModuleDescriptor, c: ModuleDescriptor)
    ensures Equals(a, Some(a))
    ensures Equals(a, Some(b)) ==> Equals(b, Some(a))
    ensures Equals(a, Some(b)) && Equals(b, Some(c)) ==> Equals(a, Some(c))
    ensures !Equals(a, None)
  {
  }

  /** Two descriptors made from their parts with the same module name are equal
      whatever their organisations and versions, though their compilation ids differ. */
  lemma {:induction false} PartsDescriptorsEqualByName()
    ensures var a := FromParts("pkg", PackageOrg("foo", false), "1.0.0", ModuleName("pkg.util"));
      var b := FromParts("pkg", PackageOrg("bar", false), "2.0.0", ModuleName("pkg.util"));
      Equals(a, Some(b)) && a.moduleCompilationId != b.moduleCompilationId
  {
    var a := FromParts("pkg", PackageOrg("foo", false), "1.0.0", ModuleName("pkg.util"));
    var b := FromParts("pkg", PackageOrg("bar", false), "2.0.0", ModuleName("pkg.util"));
    assert a.moduleCompilationId.orgName == "foo" && b.moduleCompilationId.orgName == "bar";
  }

  /** hashCode: `Objects.hash(moduleName, packageDesc)` in 32-bit arithmetic, with 0
      for a null descriptor; the fields' own hash codes are parameters. */
  function HashCode(d: ModuleDescriptor, hashName: ModuleName -> int, hashDesc: PackageDescriptor -> int): (r: int)
    ensures InInt32(r)
  {
    var h := ToInt32(MulInt32(31, 1) + hashName(d.moduleName));
    ToInt32(MulInt32(31, h) + (if d.packageDesc.None? then 0 else hashDesc(d.packageDesc.value)))
  }

  /** Equal descriptors have equal hash codes. */
  lemma {:induction false} EqualsConsistentWithHashCode(
    a: ModuleDescriptor, b: ModuleDescriptor, hashName: ModuleName -> int, hashDesc: PackageDescriptor -> int)
    requires Equals(a, Some(b))
    ensures HashCode(a, hashName, hashDesc) == HashCode(b, hashName, hashDesc)
  {
    assert a.moduleName == b.moduleName && a.packageDesc == b.packageDesc;
  }
}

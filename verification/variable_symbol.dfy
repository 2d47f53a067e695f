/** Variable symbols of the compiler API and their builder
    (compiler/api/impl/symbols/BallerinaVariableSymbol.java). The builder collects
    qualifiers and annotations in lists it appends to, and a type descriptor it
    overwrites; the symbol it builds exposes them. */
module VariableSymbols {
  import opened Wrappers

  datatype SymbolKind = Variable | OtherKind
  datatype Qualifier = Qualifier(name: string)
  datatype AnnotationSymbol = AnnotationSymbol(name: string)
  datatype TypeSymbol = TypeSymbol(signature: string)

  /** `Symbols.isFlagOn`: every bit of the flag is set in the mask. */
  predicate IsFlagOn(mask: bv64, flag: bv64) {
    mask & flag == flag
  }

  /** Setting a flag's bits turns it on, and clearing them turns a non-zero flag off. */
  lemma FlagOnAfterSet(mask: bv64, flag: bv64)
    ensures IsFlagOn(mask | flag, flag)
    ensures flag != 0 ==> !IsFlagOn(mask & !flag, flag)
  {
  }

  /** A Java `ArrayList`, shared by reference. */
  class JList<T> {
    var items: seq<T>

    constructor(items: seq<T>)
      ensures this.items == items
    {
      this.items := items;
    }

    /** add: appends at the end. */
    method Add(x: T)
      modifies this
      ensures items == old(items) + [x]
    {
      items := items + [x];
    }
  }

  /** A built variable symbol. Its qualifier and annotation lists are unmodifiable
      views: they show whatever the lists they wrap hold at the time of the call. */
  class BallerinaVariableSymbol {
    const name: string
    const moduleId: string
    const kind: SymbolKind
    const qualifierList: JList<Qualifier>
    const annotList: JList<AnnotationSymbol>
    const typeDescriptorImpl: Option<TypeSymbol>
    const isDeprecated: bool

    constructor(name: string, moduleId: string, kind: SymbolKind, qualifiers: JList<Qualifier>,
                annots: JList<AnnotationSymbol>, typeDescriptorImpl: Option<TypeSymbol>, flags: bv64,
                deprecatedFlag: bv64)
      ensures this.name == name && this.moduleId == moduleId && this.kind == kind
      ensures qualifierList == qualifiers && annotList == annots && this.typeDescriptorImpl == typeDescriptorImpl
      ensures isDeprecated <==> IsFlagOn(flags, deprecatedFlag)
    {
      this.name := name;
      this.moduleId := moduleId;
      this.kind := kind;
      this.qualifierList := qualifiers;
      this.annotList := annots;
      this.typeDescriptorImpl := typeDescriptorImpl;
      this.isDeprecated := IsFlagOn(flags, deprecatedFlag);
    }

    function Qualifiers(): seq<Qualifier>
      reads qualifierList
    {
      qualifierList.items
    }

    function Annotations(): seq<AnnotationSymbol>
      reads annotList
    {
      annotList.items
    }

    function TypeDescriptor(): Option<TypeSymbol> {
      typeDescriptorImpl
    }

    function Deprecated(): bool {
      isDeprecated
    }
  }

  /** VariableSymbolBuilder: always of kind VARIABLE; the lists start empty. */
  class VariableSymbolBuilder {
    const name: string
    const moduleId: string
    const kind: SymbolKind
    const flags: bv64
    const qualifiers: JList<Qualifier>
    const annots: JList<AnnotationSymbol>
    var typeDescriptor: Option<TypeSymbol>

    ghost predicate Valid()
      reads this
    {
      qualifiers != annots as object
    }

    constructor(name: string, moduleId: string, flags: bv64)
      ensures Valid() && fresh(qualifiers) && fresh(annots)
      ensures this.name == name && this.moduleId == moduleId && this.flags == flags && kind == Variable
      ensures qualifiers.items == [] && annots.items == [] && typeDescriptor.None?
    {
      this.name := name;
      this.moduleId := moduleId;
      this.flags := flags;
      this.kind := Variable;
      this.qualifiers := new JList([]);
      this.annots := new JList([]);
      this.typeDescriptor := None;
    }

    /** withTypeDescriptor: replaces the type descriptor and returns the builder. */
    method WithTypeDescriptor(typeDescriptor: Option<TypeSymbol>) returns (b: VariableSymbolBuilder)
      modifies this
      ensures b == this && this.typeDescriptor == typeDescriptor
    {
      this.typeDescriptor := typeDescriptor;
      return this;
    }

    /** withQualifier: appends the qualifier and returns the builder. */
    method WithQualifier(qualifier: Qualifier) returns (b: VariableSymbolBuilder)
      requires Valid()
      modifies qualifiers
      ensures b == this && qualifiers.items == old(qualifiers.items) + [qualifier]
      ensures annots.items == old(annots.items)
    {
      qualifiers.Add(qualifier);
      return this;
    }

    /** withAnnotation: appends the annotation and returns the builder. */
    method WithAnnotation(annot: AnnotationSymbol) returns (b: VariableSymbolBuilder)
      requires Valid()
      modifies annots
      ensures b == this && annots.items == old(annots.items) + [annot]
      ensures qualifiers.items == old(qualifiers.items)
    {
      annots.Add(annot);
      return this;
    }

    /** build as written: the symbol wraps the builder's own lists, so anything the
        builder appends later shows up in the symbol too. */
    method BuildAsWritten(deprecatedFlag: bv64) returns (s: BallerinaVariableSymbol)
      ensures fresh(s)
      ensures s.qualifierList == qualifiers && s.annotList == annots
      ensures s.Qualifiers() == qualifiers.items && s.Annotations() == annots.items
      ensures s.TypeDescriptor() == typeDescriptor && s.kind == kind && s.name == name && s.moduleId == moduleId
      ensures s.Deprecated() <==> IsFlagOn(flags, deprecatedFlag)
    {
      s := new BallerinaVariableSymbol(name, moduleId, kind, qualifiers, annots, typeDescriptor, flags, deprecatedFlag);
    }

    /** build as evidently intended: the symbol gets its own copies of the lists, so it
        shows the qualifiers and annotations given before the call, and no others. */
    method BuildIntended(deprecatedFlag: bv64) returns (s: BallerinaVariableSymbol)
      ensures fresh(s) && fresh(s.qualifierList) && fresh(s.annotList)
      ensures s.Qualifiers() == qualifiers.items && s.Annotations() == annots.items
      ensures s.TypeDescriptor() == typeDescriptor && s.kind == kind && s.name == name && s.moduleId == moduleId
      ensures s.Deprecated() <==> IsFlagOn(flags, deprecatedFlag)
    {
      var qualifierCopy := new JList(qualifiers.items);
      var annotCopy := new JList(annots.items);
      s := new BallerinaVariableSymbol(name, moduleId, kind, qualifierCopy, annotCopy, typeDescriptor, flags, deprecatedFlag);
    }
  }

  /** Building a symbol through a chain of calls and the build the source performs:
      at build time the symbol's qualifiers and annotations are the arguments of the
      `with` calls in call order, its type descriptor the last one given (none if
      never given), and its kind VARIABLE. */
  method BuildVariable(name: string, moduleId: string, flags: bv64, deprecatedFlag: bv64,
                       qualifiers: seq<Qualifier>, annots: seq<AnnotationSymbol>, typeDescriptors: seq<Option<TypeSymbol>>)
    returns (s: BallerinaVariableSymbol)
    ensures s.Qualifiers() == qualifiers && s.Annotations() == annots
    ensures typeDescriptors == [] ==> s.TypeDescriptor().None?
    ensures typeDescriptors != [] ==> s.TypeDescriptor() == typeDescriptors[|typeDescriptors| - 1]
    ensures s.kind == Variable && (s.Deprecated() <==> IsFlagOn(flags, deprecatedFlag))
  {
    var builder := new VariableSymbolBuilder(name, moduleId, flags);
    for i := 0 to |qualifiers|
      invariant builder.Valid() && fresh(builder.qualifiers) && fresh(builder.annots)
      invariant builder.qualifiers.items == qualifiers[..i] && builder.annots.items == []
      invariant builder.typeDescriptor.None? && builder.kind == Variable && builder.flags == flags
    {
      builder := builder.WithQualifier(qualifiers[i]);
    }
    for i := 0 to |annots|
      invariant builder.Valid() && fresh(builder.qualifiers) && fresh(builder.annots)
      invariant builder.qualifiers.items == qualifiers && builder.annots.items == annots[..i]
      invariant builder.typeDescriptor.None? && builder.kind == Variable && builder.flags == flags
    {
      builder := builder.WithAnnotation(annots[i]);
    }
    for i := 0 to |typeDescriptors|
      invariant builder.Valid() && fresh(builder.qualifiers) && fresh(builder.annots)
      invariant builder.qualifiers.items == qualifiers && builder.annots.items == annots
      invariant i == 0 ==> builder.typeDescriptor.None?
      invariant i > 0 ==> builder.typeDescriptor == typeDescriptors[i - 1]
      invariant builder.kind == Variable && builder.flags == flags
    {
      builder := builder.WithTypeDescriptor(typeDescriptors[i]);
    }
    s := builder.BuildAsWritten(deprecatedFlag);
  }

  /** As written, a qualifier added to the builder after `build` appears in the
      symbol already built. */
  method QualifierAddedAfterBuildAsWritten(first: Qualifier, later: Qualifier)
    returns (before: seq<Qualifier>, after: seq<Qualifier>)
    ensures before == [first] && after == [first, later]
  {
    var builder := new VariableSymbolBuilder("x", "m", 0);
    builder := builder.WithQualifier(first);
    var s := builder.BuildAsWritten(1);
    before := s.Qualifiers();
    builder := builder.WithQualifier(later);
    after := s.Qualifiers();
  }

  /** With the copying build, the symbol keeps the qualifiers it was built with. */
  method QualifierAddedAfterBuild(first: Qualifier, later: Qualifier)
    returns (before: seq<Qualifier>, after: seq<Qualifier>)
    ensures before == [first] && after == [first]
  {
    var builder := new VariableSymbolBuilder("x", "m", 0);
    builder := builder.WithQualifier(first);
    var s := builder.BuildIntended(1);
    before := s.Qualifiers();
    builder := builder.WithQualifier(later);
    after := s.Qualifiers();
  }
}

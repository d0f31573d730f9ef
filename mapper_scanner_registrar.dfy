/** MapperScannerRegistrar: turns each @MapperScan annotation on an importing
    configuration class into one bean definition of MapperScannerConfigurer, named
    after the importing class and the annotation's position. */
module ScannerRegistrar {
  import opened Common
  import opened Strings
  import opened Beans
  import ScannerConfigurer

  /** The "unset" sentinels of the annotation's class-valued attributes. */
  const AnnotationType: ClassName := "java.lang.annotation.Annotation"
  const ClassType: ClassName := "java.lang.Class"
  const BeanNameGeneratorType: ClassName := "org.springframework.beans.factory.support.BeanNameGenerator"
  const MapperFactoryBeanType: ClassName := "org.mybatis.spring.mapper.MapperFactoryBean"
  /** AbstractBeanDefinition.SCOPE_DEFAULT */
  const ScopeDefault := ""

  const MapperScannerConfigurerType: ClassName := "org.mybatis.spring.mapper.MapperScannerConfigurer"
  /** MapperScannerRegistrar.class.getSimpleName() */
  const RegistrarSimpleName := "MapperScannerRegistrar"

  /** The attributes of one @MapperScan annotation; arrays are sequences and
      annotation strings are never null. */
  datatype ScanAttributes = ScanAttributes(
    value: seq<string>,
    basePackages: seq<string>,
    basePackageClasses: seq<ClassName>,
    nameGenerator: ClassName,
    annotationClass: ClassName,
    markerInterface: ClassName,
    sqlSessionTemplateRef: string,
    sqlSessionFactoryRef: string,
    factoryBean: ClassName,
    lazyInitialization: string,
    defaultScope: string)

  /** The importing class's metadata: its name and its @MapperScan and @MapperScans
      attributes, each absent (null) when the class does not carry that annotation. */
  datatype ImportingClass = ImportingClass(
    className: ClassName,
    mapperScan: Option<ScanAttributes>,
    mapperScans: Option<seq<ScanAttributes>>)

  /** generateBaseBeanName: `<class>#MapperScannerRegistrar#<index>`. */
  function GenerateBaseBeanName(importing: ImportingClass, index: nat): (r: string)
    ensures |r| > |importing.className| && r[..|importing.className|] == importing.className
  {
    importing.className + "#" + RegistrarSimpleName + "#" + Decimal(index)
  }

  /** Definitions generated for different positions never share a bean name. */
  lemma BeanNamesDistinct(importing: ImportingClass, i: nat, j: nat)
    requires i != j
    ensures GenerateBaseBeanName(importing, i) != GenerateBaseBeanName(importing, j)
  {
    var prefix := importing.className + "#" + RegistrarSimpleName + "#";
    if GenerateBaseBeanName(importing, i) == GenerateBaseBeanName(importing, j) {
      assert (prefix + Decimal(i))[|prefix|..] == Decimal(i);
      assert (prefix + Decimal(j))[|prefix|..] == Decimal(j);
      DecimalInjective(i, j);
    }
  }

  /** getDefaultBasePackage: the importing class's own package. */
  function DefaultBasePackage(importing: ImportingClass): (r: string)
    ensures '.' !in importing.className ==> r == ""
    ensures '.' in importing.className ==>
              && |r| < |importing.className| && importing.className[..|r|] == r
              && importing.className[|r|] == '.' && '.' !in importing.className[|r| + 1..]
  {
    PackageName(importing.className)
  }

  /** The stream filter `StringUtils::hasText`, which keeps order. */
  function TextOnly(xs: seq<string>): (r: seq<string>)
    ensures |r| <= |xs|
    ensures forall k :: 0 <= k < |r| ==> HasText(r[k])
  {
    if xs == [] then []
    else (if HasText(xs[0]) then [xs[0]] else []) + TextOnly(xs[1..])
  }

  /** The filter drops exactly the blank entries: what it keeps is what was given with
      text, and a list without blank entries passes unchanged. */
  lemma {:induction false} TextOnlyKeeps(xs: seq<string>)
    ensures forall x :: x in TextOnly(xs) <==> x in xs && HasText(x)
    ensures (forall k :: 0 <= k < |xs| ==> HasText(xs[k])) ==> TextOnly(xs) == xs
  {
    if xs != [] {
      TextOnlyKeeps(xs[1..]);
      assert xs == [xs[0]] + xs[1..];
    }
  }

  /** The filter keeps order: filtering a concatenation filters each part, in turn. */
  lemma {:induction false} TextOnlyAppend(a: seq<string>, b: seq<string>)
    ensures TextOnly(a + b) == TextOnly(a) + TextOnly(b)
  {
    if a == [] {
      assert a + b == b;
    } else {
      assert (a + b)[0] == a[0];
      assert (a + b)[1..] == a[1..] + b;
      TextOnlyAppend(a[1..], b);
    }
  }

  /** The filter keeps duplicates: an entry with text occurs as often as it was given,
      a blank one not at all. */
  lemma {:induction false} TextOnlyCounts(xs: seq<string>, x: string)
    ensures Occurrences(TextOnly(xs), x) == if HasText(x) then Occurrences(xs, x) else 0
  {
    if xs != [] {
      var head := if HasText(xs[0]) then [xs[0]] else [];
      OccurrencesAppend(head, TextOnly(xs[1..]), x);
      TextOnlyCounts(xs[1..], x);
      if head != [] {
        assert head[1..] == [];
      }
    }
  }

  /** The stream map `ClassUtils::getPackageName`. */
  function PackagesOf(classes: seq<ClassName>): (r: seq<string>)
    ensures |r| == |classes|
    ensures forall k :: 0 <= k < |r| ==> r[k] == PackageName(classes[k])
  {
    seq(|classes|, k requires 0 <= k < |classes| => PackageName(classes[k]))
  }

  /** What the three attribute arrays contribute, in order: non-blank `value` entries,
      non-blank `basePackages` entries, then the packages of `basePackageClasses`. */
  function CollectedPackages(attrs: ScanAttributes): seq<string> {
    TextOnly(attrs.value) + TextOnly(attrs.basePackages) + PackagesOf(attrs.basePackageClasses)
  }

  /** The base-package list joined into the `basePackage` property. */
  function BasePackages(importing: ImportingClass, attrs: ScanAttributes): seq<string> {
    var collected := CollectedPackages(attrs);
    if collected == [] then [DefaultBasePackage(importing)] else collected
  }

  /** The list is never empty; it is the collected packages in order, or exactly the
      importing class's package when nothing was collected; nothing given is lost. */
  lemma BasePackagesProperties(importing: ImportingClass, attrs: ScanAttributes)
    ensures var r := BasePackages(importing, attrs);
      && |r| >= 1
      && (CollectedPackages(attrs) != [] ==> r == CollectedPackages(attrs))
      && (CollectedPackages(attrs) == [] ==> r == [DefaultBasePackage(importing)])
      && (forall x :: x in attrs.value && HasText(x) ==> x in r)
      && (forall x :: x in attrs.basePackages && HasText(x) ==> x in r)
      && (forall k :: 0 <= k < |attrs.basePackageClasses| ==> PackageName(attrs.basePackageClasses[k]) in r)
  {
    var collected := CollectedPackages(attrs);
    var classes := PackagesOf(attrs.basePackageClasses);
    TextOnlyKeeps(attrs.value);
    TextOnlyKeeps(attrs.basePackages);
    forall k | 0 <= k < |attrs.basePackageClasses|
      ensures PackageName(attrs.basePackageClasses[k]) in collected
    {
      assert collected[|collected| - |classes| + k] == classes[k];
    }
  }

  /** The names of the MapperScannerConfigurer properties the registrar may set. */
  const ProcessPropertyPlaceHoldersProperty := "processPropertyPlaceHolders"
  const AnnotationClassProperty := "annotationClass"
  const MarkerInterfaceProperty := "markerInterface"
  const NameGeneratorProperty := "nameGenerator"
  const MapperFactoryBeanClassProperty := "mapperFactoryBeanClass"
  const SqlSessionTemplateBeanNameProperty := "sqlSessionTemplateBeanName"
  const SqlSessionFactoryBeanNameProperty := "sqlSessionFactoryBeanName"
  const LazyInitializationProperty := "lazyInitialization"
  const DefaultScopeProperty := "defaultScope"
  const BasePackageProperty := "basePackage"

  /** The guarded `builder.addPropertyValue` calls of the registrar, the latest last:
      each adds `name := value` when `present` holds and nothing otherwise. */
  datatype Additions =
    | NoAdditions
    | Then(before: Additions, name: string, present: bool, value: Value)

  /** The property list the additions produce, in order. */
  function Added(a: Additions): (r: seq<PropertyValue>) {
    match a
    case NoAdditions => []
    case Then(before, name, present, value) =>
      Added(before) + (if present then [PropertyValue(name, value)] else [])
  }

  /** Every addition the registrar may make, in the order it makes them: the
      placeholder flag always, the class attributes when they differ from their
      sentinels, the references and the lazy flag when they contain text, the scope
      when it is not the default, and the joined base packages always. */
  function Candidates(importing: ImportingClass, attrs: ScanAttributes): Additions {
    var a0 := Then(NoAdditions, ProcessPropertyPlaceHoldersProperty, true, BoolValue(true));
    var a1 := Then(a0, AnnotationClassProperty, attrs.annotationClass != AnnotationType, ClassValue(attrs.annotationClass));
    var a2 := Then(a1, MarkerInterfaceProperty, attrs.markerInterface != ClassType, ClassValue(attrs.markerInterface));
    var a3 := Then(a2, NameGeneratorProperty, attrs.nameGenerator != BeanNameGeneratorType, InstanceOf(attrs.nameGenerator));
    var a4 := Then(a3, MapperFactoryBeanClassProperty, attrs.factoryBean != MapperFactoryBeanType, ClassValue(attrs.factoryBean));
    var a5 := Then(a4, SqlSessionTemplateBeanNameProperty, HasText(attrs.sqlSessionTemplateRef),
      StringValue(attrs.sqlSessionTemplateRef));
    var a6 := Then(a5, SqlSessionFactoryBeanNameProperty, HasText(attrs.sqlSessionFactoryRef),
      StringValue(attrs.sqlSessionFactoryRef));
    var a7 := Then(a6, LazyInitializationProperty, HasText(attrs.lazyInitialization), StringValue(attrs.lazyInitialization));
    var a8 := Then(a7, DefaultScopeProperty, attrs.defaultScope != ScopeDefault, StringValue(attrs.defaultScope));
    Then(a8, BasePackageProperty, true, StringValue(JoinComma(BasePackages(importing, attrs))))
  }

  /** The MapperScannerConfigurer definition that one annotation produces. */
  function ScannerDefinition(importing: ImportingClass, attrs: ScanAttributes): (d: BeanDefinition) {
    BeanDefinition(MapperScannerConfigurerType, Added(Candidates(importing, attrs)))
  }

  /** The value of the first added property of that name, read off the additions. */
  function Lookup(a: Additions, key: string): Option<Value> {
    match a
    case NoAdditions => None
    case Then(before, name, present, value) =>
      if Lookup(before, key).Some? then Lookup(before, key)
      else if present && name == key then Some(value)
      else None
  }

  /** MutablePropertyValues.get on the produced list agrees with Lookup. */
  lemma {:induction false} GetAdded(a: Additions, key: string)
    ensures Get(Added(a), key) == Lookup(a, key)
  {
    match a
    case NoAdditions =>
    case Then(before, name, present, value) =>
      GetAdded(before, key);
      FindAppend(Added(before), if present then [PropertyValue(name, value)] else [], key);
  }

  /** Lookup unfolded one addition at a time, for every depth. */
  lemma LookupUnfolds()
    ensures forall before, name, present, value, key {:trigger Lookup(Then(before, name, present, value), key)} ::
              Lookup(Then(before, name, present, value), key) ==
              if Lookup(before, key).Some? then Lookup(before, key)
              else if present && name == key then Some(value)
              else None
  {
  }

  /** What the placeholder flag and the class-valued attributes read back from the
      additions. */
  lemma ClassAttributeLookups(importing: ImportingClass, attrs: ScanAttributes)
    ensures var a := Candidates(importing, attrs);
      && Lookup(a, "processPropertyPlaceHolders") == Some(BoolValue(true))
      && Lookup(a, "annotationClass") ==
           (if attrs.annotationClass != AnnotationType then Some(ClassValue(attrs.annotationClass)) else None)
      && Lookup(a, "markerInterface") ==
           (if attrs.markerInterface != ClassType then Some(ClassValue(attrs.markerInterface)) else None)
      && Lookup(a, "nameGenerator") ==
           (if attrs.nameGenerator != BeanNameGeneratorType then Some(InstanceOf(attrs.nameGenerator)) else None)
      && Lookup(a, "mapperFactoryBeanClass") ==
           (if attrs.factoryBean != MapperFactoryBeanType then Some(ClassValue(attrs.factoryBean)) else None)
  {
    LookupUnfolds();
  }

  /** What the references, the lazy flag, the scope and the base packages read back
      from the additions. */
  lemma ScanAttributeLookups(importing: ImportingClass, attrs: ScanAttributes)
    ensures var a := Candidates(importing, attrs);
      && Lookup(a, "sqlSessionTemplateBeanName") ==
           (if HasText(attrs.sqlSessionTemplateRef) then Some(StringValue(attrs.sqlSessionTemplateRef)) else None)
      && Lookup(a, "sqlSessionFactoryBeanName") ==
           (if HasText(attrs.sqlSessionFactoryRef) then Some(StringValue(attrs.sqlSessionFactoryRef)) else None)
      && Lookup(a, "lazyInitialization") ==
           (if HasText(attrs.lazyInitialization) then Some(StringValue(attrs.lazyInitialization)) else None)
      && Lookup(a, "defaultScope") ==
           (if attrs.defaultScope != ScopeDefault then Some(StringValue(attrs.defaultScope)) else None)
      && Lookup(a, "basePackage") == Some(StringValue(JoinComma(BasePackages(importing, attrs))))

  {
    LookupUnfolds();
  }

  /** Each property of the definition: placeholders always processed, the class
      attributes only when they differ from their sentinels, the references and the
      lazy flag only when they contain text, the scope only when it is not the
      default, and the joined base packages always. */
  lemma ScannerDefinitionProperties(importing: ImportingClass, attrs: ScanAttributes)
    ensures var p := ScannerDefinition(importing, attrs).properties;
      && Get(p, "processPropertyPlaceHolders") == Some(BoolValue(true))
      && Get(p, "annotationClass") ==
           (if attrs.annotationClass != AnnotationType then Some(ClassValue(attrs.annotationClass)) else None)
      && Get(p, "markerInterface") ==
           (if attrs.markerInterface != ClassType then Some(ClassValue(attrs.markerInterface)) else None)
      && Get(p, "nameGenerator") ==
           (if attrs.nameGenerator != BeanNameGeneratorType then Some(InstanceOf(attrs.nameGenerator)) else None)
      && Get(p, "mapperFactoryBeanClass") ==
           (if attrs.factoryBean != MapperFactoryBeanType then Some(ClassValue(attrs.factoryBean)) else None)
      && Get(p, "sqlSessionTemplateBeanName") ==
           (if HasText(attrs.sqlSessionTemplateRef) then Some(StringValue(attrs.sqlSessionTemplateRef)) else None)
      && Get(p, "sqlSessionFactoryBeanName") ==
           (if HasText(attrs.sqlSessionFactoryRef) then Some(StringValue(attrs.sqlSessionFactoryRef)) else None)
      && Get(p, "lazyInitialization") ==
           (if HasText(attrs.lazyInitialization) then Some(StringValue(attrs.lazyInitialization)) else None)
      && Get(p, "defaultScope") ==
           (if attrs.defaultScope != ScopeDefault then Some(StringValue(attrs.defaultScope)) else None)
      && Get(p, "basePackage") == Some(StringValue(JoinComma(BasePackages(importing, attrs))))
  {
    var a := Candidates(importing, attrs);
    ClassAttributeLookups(importing, attrs);
    ScanAttributeLookups(importing, attrs);
    GetAdded(a, "processPropertyPlaceHolders");
    GetAdded(a, "annotationClass");
    GetAdded(a, "markerInterface");
    GetAdded(a, "nameGenerator");
    GetAdded(a, "mapperFactoryBeanClass");
    GetAdded(a, "sqlSessionTemplateBeanName");
    GetAdded(a, "sqlSessionFactoryBeanName");
    GetAdded(a, "lazyInitialization");
    GetAdded(a, "defaultScope");
    GetAdded(a, "basePackage");
  }

  /** What MapperScannerConfigurer reads back as `basePackage` after registration is
      the joined list, and splitting it at commas gives the list back when no
      package name holds a comma. */
  lemma BasePackageReadsBack(importing: ImportingClass, attrs: ScanAttributes)
    ensures ScannerConfigurer.GetPropertyValue("basePackage", ScannerDefinition(importing, attrs).properties)
            == Some(JoinComma(BasePackages(importing, attrs)))
    ensures (forall k :: 0 <= k < |BasePackages(importing, attrs)| ==> ',' !in BasePackages(importing, attrs)[k])
            ==> SplitComma(JoinComma(BasePackages(importing, attrs))) == BasePackages(importing, attrs)
  {
    var packages := BasePackages(importing, attrs);
    ScannerDefinitionProperties(importing, attrs);
    if forall k :: 0 <= k < |packages| ==> ',' !in packages[k] {
      SplitJoinComma(packages);
    }
  }

  /** The builder steps of registerBeanDefinitions(annoMeta, annoAttrs, registry, beanName),
      up to getBeanDefinition. */
  method BuildScannerDefinition(importing: ImportingClass, attrs: ScanAttributes) returns (d: BeanDefinition)
    ensures d == ScannerDefinition(importing, attrs)
  {
    var properties: seq<PropertyValue> := [];
    ghost var a := NoAdditions;
    properties := AddIf(properties, true, ProcessPropertyPlaceHoldersProperty, BoolValue(true), a);
    a := Then(a, ProcessPropertyPlaceHoldersProperty, true, BoolValue(true));
    properties := AddIf(properties, attrs.annotationClass != AnnotationType, AnnotationClassProperty, ClassValue(attrs.annotationClass), a);
    a := Then(a, AnnotationClassProperty, attrs.annotationClass != AnnotationType, ClassValue(attrs.annotationClass));
    properties := AddIf(properties, attrs.markerInterface != ClassType, MarkerInterfaceProperty, ClassValue(attrs.markerInterface), a);
    a := Then(a, MarkerInterfaceProperty, attrs.markerInterface != ClassType, ClassValue(attrs.markerInterface));
    properties := AddIf(properties, attrs.nameGenerator != BeanNameGeneratorType, NameGeneratorProperty, InstanceOf(attrs.nameGenerator), a);
    a := Then(a, NameGeneratorProperty, attrs.nameGenerator != BeanNameGeneratorType, InstanceOf(attrs.nameGenerator));
    properties := AddIf(properties, attrs.factoryBean != MapperFactoryBeanType, MapperFactoryBeanClassProperty, ClassValue(attrs.factoryBean), a);
    a := Then(a, MapperFactoryBeanClassProperty, attrs.factoryBean != MapperFactoryBeanType, ClassValue(attrs.factoryBean));
    properties := AddIf(properties, HasText(attrs.sqlSessionTemplateRef), SqlSessionTemplateBeanNameProperty, StringValue(attrs.sqlSessionTemplateRef), a);
    a := Then(a, SqlSessionTemplateBeanNameProperty, HasText(attrs.sqlSessionTemplateRef), StringValue(attrs.sqlSessionTemplateRef));
    properties := AddIf(properties, HasText(attrs.sqlSessionFactoryRef), SqlSessionFactoryBeanNameProperty, StringValue(attrs.sqlSessionFactoryRef), a);
    a := Then(a, SqlSessionFactoryBeanNameProperty, HasText(attrs.sqlSessionFactoryRef), StringValue(attrs.sqlSessionFactoryRef));

    var basePackages := CollectBasePackages(importing, attrs);

    properties := AddIf(properties, HasText(attrs.lazyInitialization), LazyInitializationProperty, StringValue(attrs.lazyInitialization), a);
    a := Then(a, LazyInitializationProperty, HasText(attrs.lazyInitialization), StringValue(attrs.lazyInitialization));
    properties := AddIf(properties, attrs.defaultScope != ScopeDefault, DefaultScopeProperty, StringValue(attrs.defaultScope), a);
    a := Then(a, DefaultScopeProperty, attrs.defaultScope != ScopeDefault, StringValue(attrs.defaultScope));
    properties := AddIf(properties, true, BasePackageProperty, StringValue(JoinComma(basePackages)), a);
    a := Then(a, BasePackageProperty, true, StringValue(JoinComma(basePackages)));
    d := BeanDefinition(MapperScannerConfigurerType, properties);
  }

  /** One addition of the registrar: `builder.addPropertyValue(name, value)` when
      `present` holds, nothing otherwise; `a` stands for the additions so far. */
  method AddIf(properties: seq<PropertyValue>, present: bool, name: string, value: Value, ghost a: Additions)
    returns (r: seq<PropertyValue>)
    requires properties == Added(a)
    ensures r == Added(Then(a, name, present, value))
  {
    r := properties;
    if present {
      r := r + [PropertyValue(name, value)];
    }
  }

  /** The stream pipeline of registerBeanDefinitions that gathers the base packages,
      with the importing class's package as the fallback. */
  method CollectBasePackages(importing: ImportingClass, attrs: ScanAttributes) returns (basePackages: seq<string>)
    ensures basePackages == BasePackages(importing, attrs)
  {
    basePackages := [];
    basePackages := basePackages + TextOnly(attrs.value);
    basePackages := basePackages + TextOnly(attrs.basePackages);
    basePackages := basePackages + PackagesOf(attrs.basePackageClasses);
    if basePackages == [] {
      basePackages := basePackages + [DefaultBasePackage(importing)];
    }
  }

  /** registerBeanDefinitions(annoMeta, annoAttrs, registry, beanName): one registration. */
  method RegisterScanner(importing: ImportingClass, attrs: ScanAttributes, registry: Registry, beanName: string)
    modifies registry
    ensures registry.registrations ==
              old(registry.registrations) + [Registration(beanName, ScannerDefinition(importing, attrs))]
  {
    var definition := BuildScannerDefinition(importing, attrs);
    registry.RegisterBeanDefinition(beanName, definition);
  }

  /** registerBeanDefinitions(importingClassMetadata, registry) for @MapperScan: one
      definition at index 0 when the annotation is present, none otherwise. */
  method RegisterBeanDefinitions(importing: ImportingClass, registry: Registry)
    modifies registry
    ensures registry.registrations == old(registry.registrations) +
              (if importing.mapperScan.Some?
               then [Registration(GenerateBaseBeanName(importing, 0), ScannerDefinition(importing, importing.mapperScan.value))]
               else [])
  {
    if importing.mapperScan.Some? {
      RegisterScanner(importing, importing.mapperScan.value, registry, GenerateBaseBeanName(importing, 0));
    }
  }

  /** Registrations of a list of definitions, the k-th named with index k. */
  function Numbered(importing: ImportingClass, definitions: seq<BeanDefinition>): (r: seq<Registration>)
    ensures |r| == |definitions|
  {
    seq(|definitions|, k requires 0 <= k < |definitions| => Registration(GenerateBaseBeanName(importing, k), definitions[k]))
  }

  /** The scanner definitions of a @MapperScans list, one per nested annotation, in order. */
  function ScannerDefinitions(importing: ImportingClass, annotations: seq<ScanAttributes>): (r: seq<BeanDefinition>)
    ensures |r| == |annotations|
  {
    seq(|annotations|, k requires 0 <= k < |annotations| => ScannerDefinition(importing, annotations[k]))
  }

  /** The registrations for a @MapperScans list. */
  function RepeatedRegistrations(importing: ImportingClass, annotations: seq<ScanAttributes>): (r: seq<Registration>)
    ensures |r| == |annotations|
  {
    Numbered(importing, ScannerDefinitions(importing, annotations))
  }

  /** Within one @MapperScans list, the bean names are pairwise distinct. */
  lemma RepeatedNamesDistinct(importing: ImportingClass, definitions: seq<BeanDefinition>)
    ensures var r := Numbered(importing, definitions);
      forall a, b :: 0 <= a < b < |r| ==> r[a].beanName != r[b].beanName
  {
    var r := Numbered(importing, definitions);
    forall a, b | 0 <= a < b < |r| ensures r[a].beanName != r[b].beanName {
      BeanNamesDistinct(importing, a, b);
    }
  }

  lemma PrefixStep<T>(s: seq<T>, i: nat)
    requires i < |s|
    ensures s[..i + 1] == s[..i] + [s[i]]
  {
  }

  /** The registration of the i-th nested annotation of a @MapperScans list. */
  method RegisterNested(importing: ImportingClass, annotations: seq<ScanAttributes>, i: nat, registry: Registry)
    requires i < |annotations|
    modifies registry
    ensures registry.registrations == old(registry.registrations) + [RepeatedRegistrations(importing, annotations)[i]]
  {
    RegisterScanner(importing, annotations[i], registry, GenerateBaseBeanName(importing, i));
  }

  /** RepeatingRegistrar.registerBeanDefinitions for @MapperScans. */
  method RegisterRepeating(importing: ImportingClass, registry: Registry)
    modifies registry
    ensures registry.registrations == old(registry.registrations) +
              (if importing.mapperScans.Some? then RepeatedRegistrations(importing, importing.mapperScans.value) else [])
  {
    if importing.mapperScans.Some? {
      var annotations := importing.mapperScans.value;
      ghost var all := RepeatedRegistrations(importing, annotations);
      for i := 0 to |annotations|
        invariant registry.registrations == old(registry.registrations) + all[..i]
      {
        RegisterNested(importing, annotations, i, registry);
        PrefixStep(all, i);
      }
      assert all[..|annotations|] == all;
    }
  }
}

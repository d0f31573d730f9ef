/** MapperScannerConfigurer: a registry post-processor that holds the scan settings,
    optionally refreshes its string settings from property placeholders, and hands
    the settings to a ClassPathMapperScanner.

    The container lookups are inputs: how many PropertyResourceConfigurer beans the
    context holds, whether the context is configurable, the property values of this
    bean's own definition after those configurers have run on it, the environment's
    resolvePlaceholders, and the tokenizer applied to `basePackage`. */
module ScannerConfigurer {
  import opened Common
  import opened Beans

  /** The configurer's settable fields. */
  datatype Settings = Settings(
    basePackage: Option<string>,
    addToConfig: bool,
    lazyInitialization: Option<string>,
    sqlSessionFactory: Option<nat>,
    sqlSessionTemplate: Option<nat>,
    sqlSessionFactoryBeanName: Option<string>,
    sqlSessionTemplateBeanName: Option<string>,
    annotationClass: Option<ClassName>,
    markerInterface: Option<ClassName>,
    mapperFactoryBeanClass: Option<ClassName>,
    processPropertyPlaceHolders: bool,
    /** the BeanNameGenerator instance, named by its class */
    nameGenerator: Option<ClassName>,
    defaultScope: Option<string>)

  /** Field initialisers: everything null or false except `addToConfig`, which is true. */
  const InitialSettings := Settings(None, true, None, None, None, None, None, None, None, None, false, None, None)

  const BasePackageRequired := "Property 'basePackage' is required"

  /** What the container supplies to placeholder processing. */
  datatype PlaceholderContext = PlaceholderContext(
    propertyResourceConfigurers: nat,
    configurable: bool,
    processedValues: seq<PropertyValue>,
    resolve: string -> string)

  /** The bean-definition values override the fields only when some
      PropertyResourceConfigurer exists and the context is configurable. */
  predicate Overrides(ctx: PlaceholderContext) {
    ctx.propertyResourceConfigurers > 0 && ctx.configurable
  }

  /** getPropertyValue: the string a property holds, for a plain String or a
      TypedStringValue; null for a missing property, a null value or any other type. */
  function GetPropertyValue(propertyName: string, values: seq<PropertyValue>): (r: Option<string>)
    ensures Get(values, propertyName).None? ==> r.None?
    ensures Get(values, propertyName).Some? ==>
              var v := Get(values, propertyName).value;
              && (v.StringValue? ==> r == Some(v.s))
              && (v.TypedString? ==> r == v.typed)
              && (!v.StringValue? && !v.TypedString? ==> r.None?)
  {
    var property := Find(values, propertyName);
    if property.None? then None
    else
      var value := property.value.value;
      if value.NullValue? then None
      else if value.StringValue? then Some(value.s)
      else if value.TypedString? then value.typed
      else None
  }

  /** Optional.ofNullable(field).map(resolvePlaceholders).orElse(null). */
  function ResolveNullable(field: Option<string>, resolve: string -> string): (r: Option<string>) {
    match field
    case Some(s) => Some(resolve(s))
    case None => None
  }

  /** One string field after placeholder processing: overridden from the bean
      definition when that applies, then resolved unless null. */
  function Refreshed(field: Option<string>, propertyName: string, ctx: PlaceholderContext): (r: Option<string>)
    ensures !Overrides(ctx) ==> (r.None? <==> field.None?)
    ensures !Overrides(ctx) && field.Some? ==> r == Some(ctx.resolve(field.value))
    ensures Overrides(ctx) ==> (r.None? <==> GetPropertyValue(propertyName, ctx.processedValues).None?)
    ensures Overrides(ctx) && r.Some? ==> r.value == ctx.resolve(GetPropertyValue(propertyName, ctx.processedValues).value)
  {
    ResolveNullable(if Overrides(ctx) then GetPropertyValue(propertyName, ctx.processedValues) else field, ctx.resolve)
  }

  /** processPropertyPlaceHolders on the settings: only the five string fields change. */
  function PlaceholdersProcessed(s: Settings, ctx: PlaceholderContext): (r: Settings)
    ensures r.(basePackage := s.basePackage,
               sqlSessionFactoryBeanName := s.sqlSessionFactoryBeanName,
               sqlSessionTemplateBeanName := s.sqlSessionTemplateBeanName,
               lazyInitialization := s.lazyInitialization,
               defaultScope := s.defaultScope) == s
    ensures !Overrides(ctx) ==>
              && (r.basePackage.None? <==> s.basePackage.None?)
              && (r.sqlSessionFactoryBeanName.None? <==> s.sqlSessionFactoryBeanName.None?)
              && (r.sqlSessionTemplateBeanName.None? <==> s.sqlSessionTemplateBeanName.None?)
              && (r.lazyInitialization.None? <==> s.lazyInitialization.None?)
              && (r.defaultScope.None? <==> s.defaultScope.None?)
  {
    s.(basePackage := Refreshed(s.basePackage, "basePackage", ctx),
       sqlSessionFactoryBeanName := Refreshed(s.sqlSessionFactoryBeanName, "sqlSessionFactoryBeanName", ctx),
       sqlSessionTemplateBeanName := Refreshed(s.sqlSessionTemplateBeanName, "sqlSessionTemplateBeanName", ctx),
       lazyInitialization := Refreshed(s.lazyInitialization, "lazyInitialization", ctx),
       defaultScope := Refreshed(s.defaultScope, "defaultScope", ctx))
  }

  /** Boolean.valueOf(s): "true" in any letter case. */
  predicate ParseBoolean(s: string) {
    && |s| == 4
    && (s[0] == 't' || s[0] == 'T')
    && (s[1] == 'r' || s[1] == 'R')
    && (s[2] == 'u' || s[2] == 'U')
    && (s[3] == 'e' || s[3] == 'E')
  }

  /** The arguments given to the ClassPathMapperScanner's setters; the lazy flag and
      the default scope are None when their setter is not called. */
  datatype ScannerConfig = ScannerConfig(
    addToConfig: bool,
    annotationClass: Option<ClassName>,
    markerInterface: Option<ClassName>,
    sqlSessionFactory: Option<nat>,
    sqlSessionTemplate: Option<nat>,
    sqlSessionFactoryBeanName: Option<string>,
    sqlSessionTemplateBeanName: Option<string>,
    resourceLoader: Option<nat>,
    beanNameGenerator: Option<ClassName>,
    mapperFactoryBeanClass: Option<ClassName>,
    lazyInitialization: Option<bool>,
    defaultScope: Option<string>)

  /** The scanner receives the configured fields unchanged; lazy initialisation and the
      default scope only when they contain text. */
  predicate Transferred(s: Settings, applicationContext: Option<nat>, sc: ScannerConfig) {
    && sc.addToConfig == s.addToConfig
    && sc.annotationClass == s.annotationClass
    && sc.markerInterface == s.markerInterface
    && sc.sqlSessionFactory == s.sqlSessionFactory
    && sc.sqlSessionTemplate == s.sqlSessionTemplate
    && sc.sqlSessionFactoryBeanName == s.sqlSessionFactoryBeanName
    && sc.sqlSessionTemplateBeanName == s.sqlSessionTemplateBeanName
    && sc.resourceLoader == applicationContext
    && sc.beanNameGenerator == s.nameGenerator
    && sc.mapperFactoryBeanClass == s.mapperFactoryBeanClass
    && (sc.lazyInitialization.Some? <==> HasTextOpt(s.lazyInitialization))
    && (sc.lazyInitialization.Some? ==> sc.lazyInitialization.value == ParseBoolean(s.lazyInitialization.value))
    && (sc.defaultScope.Some? <==> HasTextOpt(s.defaultScope))
    && (sc.defaultScope.Some? ==> sc.defaultScope == s.defaultScope)
  }

  /** The scanner setup in postProcessBeanDefinitionRegistry: one setter call after another. */
  method ConfigureScanner(s: Settings, applicationContext: Option<nat>) returns (scanner: ScannerConfig)
    ensures Transferred(s, applicationContext, scanner)
  {
    scanner := ScannerConfig(false, None, None, None, None, None, None, None, None, None, None, None);
    scanner := scanner.(addToConfig := s.addToConfig);
    scanner := scanner.(annotationClass := s.annotationClass);
    scanner := scanner.(markerInterface := s.markerInterface);
    scanner := scanner.(sqlSessionFactory := s.sqlSessionFactory);
    scanner := scanner.(sqlSessionTemplate := s.sqlSessionTemplate);
    scanner := scanner.(sqlSessionFactoryBeanName := s.sqlSessionFactoryBeanName);
    scanner := scanner.(sqlSessionTemplateBeanName := s.sqlSessionTemplateBeanName);
    scanner := scanner.(resourceLoader := applicationContext);
    scanner := scanner.(beanNameGenerator := s.nameGenerator);
    scanner := scanner.(mapperFactoryBeanClass := s.mapperFactoryBeanClass);
    if HasTextOpt(s.lazyInitialization) {
      scanner := scanner.(lazyInitialization := Some(ParseBoolean(s.lazyInitialization.value)));
    }
    if HasTextOpt(s.defaultScope) {
      scanner := scanner.(defaultScope := s.defaultScope);
    }
  }

  class MapperScannerConfigurer {
    var settings: Settings
    var applicationContext: Option<nat>
    var beanName: Option<string>

    constructor ()
      ensures settings == InitialSettings && applicationContext.None? && beanName.None?
    {
      settings := InitialSettings;
      applicationContext := None;
      beanName := None;
    }

    method SetBasePackage(basePackage: Option<string>)
      modifies this`settings
      ensures settings == old(settings).(basePackage := basePackage)
    {
      settings := settings.(basePackage := basePackage);
    }

    method SetAddToConfig(addToConfig: bool)
      modifies this`settings
      ensures settings == old(settings).(addToConfig := addToConfig)
    {
      settings := settings.(addToConfig := addToConfig);
    }

    method SetLazyInitialization(lazyInitialization: Option<string>)
      modifies this`settings
      ensures settings == old(settings).(lazyInitialization := lazyInitialization)
    {
      settings := settings.(lazyInitialization := lazyInitialization);
    }

    method SetAnnotationClass(annotationClass: Option<ClassName>)
      modifies this`settings
      ensures settings == old(settings).(annotationClass := annotationClass)
    {
      settings := settings.(annotationClass := annotationClass);
    }

    method SetMarkerInterface(markerInterface: Option<ClassName>)
      modifies this`settings
      ensures settings == old(settings).(markerInterface := markerInterface)
    {
      settings := settings.(markerInterface := markerInterface);
    }

    method SetSqlSessionTemplate(sqlSessionTemplate: Option<nat>)
      modifies this`settings
      ensures settings == old(settings).(sqlSessionTemplate := sqlSessionTemplate)
    {
      settings := settings.(sqlSessionTemplate := sqlSessionTemplate);
    }

    method SetSqlSessionTemplateBeanName(name: Option<string>)
      modifies this`settings
      ensures settings == old(settings).(sqlSessionTemplateBeanName := name)
    {
      settings := settings.(sqlSessionTemplateBeanName := name);
    }

    method SetSqlSessionFactory(sqlSessionFactory: Option<nat>)
      modifies this`settings
      ensures settings == old(settings).(sqlSessionFactory := sqlSessionFactory)
    {
      settings := settings.(sqlSessionFactory := sqlSessionFactory);
    }

    method SetSqlSessionFactoryBeanName(name: Option<string>)
      modifies this`settings
      ensures settings == old(settings).(sqlSessionFactoryBeanName := name)
    {
      settings := settings.(sqlSessionFactoryBeanName := name);
    }

    method SetProcessPropertyPlaceHolders(processPropertyPlaceHolders: bool)
      modifies this`settings
      ensures settings == old(settings).(processPropertyPlaceHolders := processPropertyPlaceHolders)
    {
      settings := settings.(processPropertyPlaceHolders := processPropertyPlaceHolders);
    }

    method SetMapperFactoryBeanClass(mapperFactoryBeanClass: Option<ClassName>)
      modifies this`settings
      ensures settings == old(settings).(mapperFactoryBeanClass := mapperFactoryBeanClass)
    {
      settings := settings.(mapperFactoryBeanClass := mapperFactoryBeanClass);
    }

    method SetNameGenerator(nameGenerator: Option<ClassName>)
      modifies this`settings
      ensures settings == old(settings).(nameGenerator := nameGenerator)
    {
      settings := settings.(nameGenerator := nameGenerator);
    }

    method SetDefaultScope(defaultScope: Option<string>)
      modifies this`settings
      ensures settings == old(settings).(defaultScope := defaultScope)
    {
      settings := settings.(defaultScope := defaultScope);
    }

    method SetApplicationContext(applicationContext: Option<nat>)
      modifies this`applicationContext
      ensures this.applicationContext == applicationContext
    {
      this.applicationContext := applicationContext;
    }

    method SetBeanName(name: Option<string>)
      modifies this`beanName
      ensures beanName == name
    {
      beanName := name;
    }

    /** afterPropertiesSet: fails exactly when no base package is set. */
    method AfterPropertiesSet() returns (r: Outcome<Error>)
      ensures r.Fail? <==> settings.basePackage.None?
      ensures r.Fail? ==> r.error == IllegalArgument(BasePackageRequired)
    {
      if settings.basePackage.None? {
        return Fail(IllegalArgument(BasePackageRequired));
      }
      return Pass;
    }

    /** processPropertyPlaceHolders: the override from the bean definition, then the
        null-preserving resolution of the five string fields, one field at a time. */
    method ProcessPropertyPlaceHolders(ctx: PlaceholderContext)
      modifies this`settings
      ensures settings == PlaceholdersProcessed(old(settings), ctx)
    {
      if ctx.propertyResourceConfigurers > 0 && ctx.configurable {
        var values := ctx.processedValues;
        settings := settings.(basePackage := GetPropertyValue("basePackage", values));
        settings := settings.(sqlSessionFactoryBeanName := GetPropertyValue("sqlSessionFactoryBeanName", values));
        settings := settings.(sqlSessionTemplateBeanName := GetPropertyValue("sqlSessionTemplateBeanName", values));
        settings := settings.(lazyInitialization := GetPropertyValue("lazyInitialization", values));
        settings := settings.(defaultScope := GetPropertyValue("defaultScope", values));
      }
      settings := settings.(basePackage := ResolveNullable(settings.basePackage, ctx.resolve));
      settings := settings.(sqlSessionFactoryBeanName := ResolveNullable(settings.sqlSessionFactoryBeanName, ctx.resolve));
      settings := settings.(sqlSessionTemplateBeanName := ResolveNullable(settings.sqlSessionTemplateBeanName, ctx.resolve));
      settings := settings.(lazyInitialization := ResolveNullable(settings.lazyInitialization, ctx.resolve));
      settings := settings.(defaultScope := ResolveNullable(settings.defaultScope, ctx.resolve));
    }

    /** postProcessBeanDefinitionRegistry: placeholder processing only when its flag is
        set, then the scanner setup and the scan of the tokenized base package. */
    method PostProcessBeanDefinitionRegistry(ctx: PlaceholderContext, tokenize: Option<string> -> seq<string>)
      returns (scanner: ScannerConfig, packages: seq<string>)
      modifies this`settings
      ensures settings == if old(settings).processPropertyPlaceHolders
                          then PlaceholdersProcessed(old(settings), ctx) else old(settings)
      ensures Transferred(settings, applicationContext, scanner)
      ensures packages == tokenize(settings.basePackage)
    {
      if settings.processPropertyPlaceHolders {
        ProcessPropertyPlaceHolders(ctx);
      }
      scanner := ConfigureScanner(settings, applicationContext);
      packages := tokenize(settings.basePackage);
    }
  }
}

# mybatis-spring core, modelled in Dafny

This project models the part of mybatis-spring that joins MyBatis to a Spring container. It has four pieces:

- **SqlSessionTemplate** (`sql_session_template.dfy`, module `SessionTemplate`). This is the thread-shareable session handle. Its three fields are final, so the template is a datatype. The constructors are `Result`-returning functions. `commit`/`rollback`/`close` are refused, and `destroy` does nothing. The interceptor behind the session proxy is an imperative method. It acquires a session, runs one operation and commits it when no transaction governs the session. It unwraps the error and translates it when a translator is configured and the error is a persistence error. It releases the session exactly once. What it does to the session is recorded as a trace of events, and the trace is specified by `InvokeTrace`.
- **MapperScannerRegistrar** (`mapper_scanner_registrar.dfy`, module `ScannerRegistrar`). It turns each `@MapperScan` annotation (or each nested annotation of `@MapperScans`) into one `MapperScannerConfigurer` bean definition. The definition is named `<class>#MapperScannerRegistrar#<index>` and registered in a `Registry` object. `ScannerDefinition` is the definition as a function of the annotation. `BuildScannerDefinition` is the builder's step-by-step construction, and it is proved equal to that function. The registration methods change the registry.
- **MapperFactoryBean** (`mapper_factory_bean.dfy`, module `FactoryBean`). This is the factory bean behind each mapper interface. It is a class with the mutable `mapperInterface` and `addToConfig` fields. Its `CheckDaoConfig` mutates the shared MyBatis `Configuration`, modelled as a class holding the set of known mapper interfaces. `Checked` is the pure specification of that check.
- **MapperScannerConfigurer** (`mapper_scanner_configurer.dfy`, module `ScannerConfigurer`). This is the registry post-processor. It is a class whose settings record the setters overwrite. The model covers:
  - `afterPropertiesSet`;
  - placeholder processing, which keeps null fields null and touches only the five string fields;
  - `getPropertyValue`;
  - the transfer of settings to the mapper scanner.

Shared pieces:

- `common.dfy`: `Option`, `Result`, `Outcome`, the error kinds, and Spring's `StringUtils.hasText`.
- `strings.dfy`: comma joining and its inverse, `ClassUtils.getPackageName`, and the decimal rendering of an index.
- `beans.dfy`: property values, bean definitions and the bean-definition registry.

Library calls and container lookups are parameters of the operations that make them:

- `SqlSessionUtils.getSqlSession` and the reflective call;
- `isSqlSessionTransactional` and `commit(true)`;
- `ExceptionUtil.unwrapThrowable` and `translateExceptionIfPossible`;
- `addMapper`'s failure and the parent class's `checkDaoConfig`;
- the placeholder context and the tokenizer.

## Behaviour worth noting

- **Registrar defaulting.** The registrar never fails for lack of a base package. An empty list always becomes the importing class's package, which is `""` for a class in the default package. The only missing-base-package failure is `afterPropertiesSet` of the configurer.
- **Null factory in the shorter constructors.** The one- and two-argument template constructors dereference the factory before the null check. So a null factory surfaces as a `NullPointer` failure, not as the "Property 'sqlSessionFactory' is required" error.
- **One name for two registrars.** Names are distinct only within one `@MapperScans` list. A class carrying both a direct `@MapperScan` and a `@MapperScans` gets `<class>#MapperScannerRegistrar#0` from both registrars (MapperScannerRegistrar.java lines 85 and 213), and which definition remains is up to the registry's overriding rule.

## Model

Source paths are relative to the repository root.

| member | source | states |
|---|---|---|
| SessionTemplate.NewTemplate | src/main/java/org/mybatis/spring/SqlSessionTemplate.java:125-156 | construction fails exactly when the factory or the executor type is null, with the required-property message for the first missing one; otherwise the getters return exactly the three arguments |
| SessionTemplate.NewTemplateWithExecutor | src/main/java/org/mybatis/spring/SqlSessionTemplate.java:107-113 | a null factory fails before any check; otherwise the template holds the arguments and a MyBatisExceptionTranslator over the factory's data source with lazy initialisation |
| SessionTemplate.NewTemplateWithFactory | src/main/java/org/mybatis/spring/SqlSessionTemplate.java:96-98 | succeeds exactly for a non-null factory, taking the executor type from the factory's configuration |
| SessionTemplate.Refuse | src/main/java/org/mybatis/spring/SqlSessionTemplate.java:333-367 | every manual commit, rollback and close fails with an UnsupportedOperationException, whatever the template and the argument |
| SessionTemplate.Destroy | src/main/java/org/mybatis/spring/SqlSessionTemplate.java:423-426 | destroy always returns normally, whatever the template |
| SessionTemplate.Invoke | src/main/java/org/mybatis/spring/SqlSessionTemplate.java:436-479 | a failed acquisition propagates; the delegate's result is returned unchanged when nothing is thrown; a caught error is unwrapped and translated only with a translator and a persistence error, the translation replacing it only when non-null; the events on the session are those of InvokeTrace |
| SessionTemplate.InvokeTraceCounts | src/main/java/org/mybatis/spring/SqlSessionTemplate.java:453-457 | once a session is acquired, commit(true) happens exactly once when the operation succeeded outside a transaction and never otherwise, and the session is released exactly once on every path |
| SessionTemplate.InvokeTraceOrder | src/main/java/org/mybatis/spring/SqlSessionTemplate.java:459-478 | nothing happens when acquisition fails; the operation comes first; every commit is forced; no commit follows the release; translation is requested exactly when it applies and only after the release, so nulling the session prevents a second release |
| SessionTemplate.ReleaseCount | src/main/java/org/mybatis/spring/SqlSessionTemplate.java:472-478 | a trace of the interceptor's shape releases its session once and commits it at most once |
| ScannerRegistrar.GenerateBaseBeanName | src/main/java/org/mybatis/spring/annotation/MapperScannerRegistrar.java:187-190 | the bean name starts with the importing class's name |
| ScannerRegistrar.BeanNamesDistinct | src/main/java/org/mybatis/spring/annotation/MapperScannerRegistrar.java:187-190 | different indices give different bean names |
| ScannerRegistrar.DefaultBasePackage | src/main/java/org/mybatis/spring/annotation/MapperScannerRegistrar.java:192-194 | the importing class's package: "" without a dot, otherwise the text before its last dot |
| ScannerRegistrar.TextOnly | src/main/java/org/mybatis/spring/annotation/MapperScannerRegistrar.java:145-149 | the hasText filter keeps only entries with text and never lengthens the list; their order and duplicates are kept, as TextOnlyAppend and TextOnlyCounts state |
| ScannerRegistrar.TextOnlyKeeps | src/main/java/org/mybatis/spring/annotation/MapperScannerRegistrar.java:145-149 | an entry survives the filter exactly when it was given and has text; a list without blank entries passes unchanged |
| ScannerRegistrar.TextOnlyAppend | src/main/java/org/mybatis/spring/annotation/MapperScannerRegistrar.java:145-149 | the filter keeps order: filtering a concatenation is the concatenation of the filtered parts |
| ScannerRegistrar.TextOnlyCounts | src/main/java/org/mybatis/spring/annotation/MapperScannerRegistrar.java:145-149 | the filter keeps duplicates: an entry with text occurs in the result as often as in the input, a blank entry never |
| ScannerRegistrar.PackagesOf | src/main/java/org/mybatis/spring/annotation/MapperScannerRegistrar.java:151-152 | each basePackageClasses entry contributes its own package, in order |
| ScannerRegistrar.BasePackagesProperties | src/main/java/org/mybatis/spring/annotation/MapperScannerRegistrar.java:144-156 | the base-package list is never empty; it is the collected packages when there are any and exactly the importing class's package otherwise; every non-blank value, non-blank basePackages entry and package of a basePackageClasses entry is in it |
| ScannerRegistrar.ScannerDefinitionProperties | src/main/java/org/mybatis/spring/annotation/MapperScannerRegistrar.java:107-168 | processPropertyPlaceHolders is always true; annotationClass, markerInterface, nameGenerator and mapperFactoryBeanClass are set exactly when they differ from their sentinel types; the two references and lazyInitialization exactly when they contain text; defaultScope exactly when it is not the default scope; basePackage always, as the comma-joined list |
| ScannerRegistrar.BasePackageReadsBack | src/main/java/org/mybatis/spring/annotation/MapperScannerRegistrar.java:168 | the configurer's getPropertyValue reads the joined list back as basePackage, and splitting it at commas restores the list when no package name holds a comma |
| ScannerRegistrar.CollectBasePackages | src/main/java/org/mybatis/spring/annotation/MapperScannerRegistrar.java:144-156 | the ArrayList grown step by step equals the base-package list |
| ScannerRegistrar.BuildScannerDefinition | src/main/java/org/mybatis/spring/annotation/MapperScannerRegistrar.java:107-173 | the builder's guarded addPropertyValue calls produce exactly ScannerDefinition, a MapperScannerConfigurer definition |
| ScannerRegistrar.RegisterScanner | src/main/java/org/mybatis/spring/annotation/MapperScannerRegistrar.java:100-178 | the registry gains exactly one registration, of the scanner definition under the given name, at the end |
| ScannerRegistrar.RegisterBeanDefinitions | src/main/java/org/mybatis/spring/annotation/MapperScannerRegistrar.java:73-89 | with @MapperScan present, exactly one definition is registered, under index 0; without it, the registry is unchanged |
| ScannerRegistrar.RepeatedNamesDistinct | src/main/java/org/mybatis/spring/annotation/MapperScannerRegistrar.java:211-214 | registrations numbered by position for one importing class, as those of a @MapperScans list are, have pairwise distinct bean names |
| ScannerRegistrar.RegisterRepeating | src/main/java/org/mybatis/spring/annotation/MapperScannerRegistrar.java:201-217 | with @MapperScans present, one definition per nested annotation is appended, in order, the i-th under index i; without it, the registry is unchanged |
| FactoryBean.MapperOf | src/main/java/org/mybatis/spring/mapper/MapperFactoryBean.java:111-112 | the session yields a proxy exactly for an interface the configuration knows, the proxy of that interface, and a BindingException otherwise |
| FactoryBean.Configuration.AddMapper | src/main/java/org/mybatis/spring/mapper/MapperFactoryBean.java:89-90 | a successful add makes the configuration know the interface; a failing add throws and leaves it as it was |
| FactoryBean.Checked | src/main/java/org/mybatis/spring/mapper/MapperFactoryBean.java:82-98 | the parent's failure propagates first; a null mapperInterface fails with the required-property message; an add is attempted exactly when addToConfig holds and the interface is unknown; the configuration gains the interface only through a successful add; an exception from the add surfaces as an IllegalArgumentException caused by it, while a java.lang.Error escapes the `catch (Exception e)` unwrapped; the error context is reset exactly when an add was attempted, whichever way it failed; a passing check leaves the interface known whenever addToConfig holds |
| FactoryBean.CheckIdempotent | src/main/java/org/mybatis/spring/mapper/MapperFactoryBean.java:88 | after a passing check, a second one passes without attempting an add and changes nothing, whatever addMapper would do |
| FactoryBean.CheckedThenObject | src/main/java/org/mybatis/spring/mapper/MapperFactoryBean.java:82-115 | after a passing check with addToConfig, getObject returns the proxy of exactly the mapper interface |
| FactoryBean.MapperFactoryBean.constructor | src/main/java/org/mybatis/spring/mapper/MapperFactoryBean.java:62-68 | a new factory bean has no interface and addToConfig true |
| FactoryBean.MapperFactoryBean.WithInterface | src/main/java/org/mybatis/spring/mapper/MapperFactoryBean.java:73-76 | the interface is the argument and addToConfig is true |
| FactoryBean.MapperFactoryBean.SetMapperInterface | src/main/java/org/mybatis/spring/mapper/MapperFactoryBean.java:140-151 | getMapperInterface returns what was set; the flag is kept |
| FactoryBean.MapperFactoryBean.SetAddToConfig | src/main/java/org/mybatis/spring/mapper/MapperFactoryBean.java:163-174 | isAddToConfig returns what was set; the interface is kept |
| FactoryBean.MapperFactoryBean.CheckDaoConfig | src/main/java/org/mybatis/spring/mapper/MapperFactoryBean.java:82-98 | the outcome (an exception wrapped, a java.lang.Error unwrapped), the configuration's new mapper set and the error-context resets (one in the finally block after every attempted add) are exactly those of Checked on the old configuration |
| FactoryBean.MapperFactoryBean.GetObject | src/main/java/org/mybatis/spring/mapper/MapperFactoryBean.java:107-115 | getObject succeeds exactly when the interface is set and known to the configuration, and then returns the proxy of exactly that interface |
| FactoryBean.MapperFactoryBean.IsSingleton | src/main/java/org/mybatis/spring/mapper/MapperFactoryBean.java:129-131 | isSingleton is always true |
| FactoryBean.MapperFactoryBean.ObjectOfObjectType | src/main/java/org/mybatis/spring/mapper/MapperFactoryBean.java:121-123 | getObjectType is the type of every object getObject hands out |
| Beans.FindFirst | src/main/java/org/mybatis/spring/mapper/MapperScannerConfigurer.java:471 | the property `getPropertyValue(name)` returns is the first of that name: every property before it has another name |
| ScannerConfigurer.GetPropertyValue | src/main/java/org/mybatis/spring/mapper/MapperScannerConfigurer.java:470-488 | null for a missing property or a null value, the string for a String value, the inner value for a TypedStringValue, null for any other type |
| ScannerConfigurer.Refreshed | src/main/java/org/mybatis/spring/mapper/MapperScannerConfigurer.java:432-463 | without an override a field stays null exactly when it was null and is otherwise resolved; with one it takes the bean-definition value, resolved, and is null exactly when that value is |
| ScannerConfigurer.PlaceholdersProcessed | src/main/java/org/mybatis/spring/mapper/MapperScannerConfigurer.java:428-464 | only the five string fields can change, and without an override each stays null exactly when it was null |
| ScannerConfigurer.ConfigureScanner | src/main/java/org/mybatis/spring/mapper/MapperScannerConfigurer.java:394-410 | the scanner receives the configured fields unchanged; lazy initialisation (parsed as a boolean) and the default scope only when they contain text |
| ScannerConfigurer.MapperScannerConfigurer.constructor | src/main/java/org/mybatis/spring/mapper/MapperScannerConfigurer.java:124-164 | every field starts null or false except addToConfig, which starts true |
| ScannerConfigurer.MapperScannerConfigurer.SetBasePackage | src/main/java/org/mybatis/spring/mapper/MapperScannerConfigurer.java:175-177 | only basePackage changes, to the argument |
| ScannerConfigurer.MapperScannerConfigurer.SetAddToConfig | src/main/java/org/mybatis/spring/mapper/MapperScannerConfigurer.java:185-187 | only addToConfig changes, to the argument |
| ScannerConfigurer.MapperScannerConfigurer.SetLazyInitialization | src/main/java/org/mybatis/spring/mapper/MapperScannerConfigurer.java:198-200 | only lazyInitialization changes, to the argument |
| ScannerConfigurer.MapperScannerConfigurer.SetAnnotationClass | src/main/java/org/mybatis/spring/mapper/MapperScannerConfigurer.java:211-213 | only annotationClass changes, to the argument |
| ScannerConfigurer.MapperScannerConfigurer.SetMarkerInterface | src/main/java/org/mybatis/spring/mapper/MapperScannerConfigurer.java:225-227 | only markerInterface changes, to the argument |
| ScannerConfigurer.MapperScannerConfigurer.SetSqlSessionTemplate | src/main/java/org/mybatis/spring/mapper/MapperScannerConfigurer.java:238-240 | only sqlSessionTemplate changes, to the argument |
| ScannerConfigurer.MapperScannerConfigurer.SetSqlSessionTemplateBeanName | src/main/java/org/mybatis/spring/mapper/MapperScannerConfigurer.java:252-254 | only sqlSessionTemplateBeanName changes, to the argument |
| ScannerConfigurer.MapperScannerConfigurer.SetSqlSessionFactory | src/main/java/org/mybatis/spring/mapper/MapperScannerConfigurer.java:265-267 | only sqlSessionFactory changes, to the argument |
| ScannerConfigurer.MapperScannerConfigurer.SetSqlSessionFactoryBeanName | src/main/java/org/mybatis/spring/mapper/MapperScannerConfigurer.java:279-281 | only sqlSessionFactoryBeanName changes, to the argument |
| ScannerConfigurer.MapperScannerConfigurer.SetProcessPropertyPlaceHolders | src/main/java/org/mybatis/spring/mapper/MapperScannerConfigurer.java:291-293 | only processPropertyPlaceHolders changes, to the argument |
| ScannerConfigurer.MapperScannerConfigurer.SetMapperFactoryBeanClass | src/main/java/org/mybatis/spring/mapper/MapperScannerConfigurer.java:301-303 | only mapperFactoryBeanClass changes, to the argument |
| ScannerConfigurer.MapperScannerConfigurer.SetApplicationContext | src/main/java/org/mybatis/spring/mapper/MapperScannerConfigurer.java:309-311 | the application context becomes the argument |
| ScannerConfigurer.MapperScannerConfigurer.SetBeanName | src/main/java/org/mybatis/spring/mapper/MapperScannerConfigurer.java:317-319 | the bean name becomes the argument |
| ScannerConfigurer.MapperScannerConfigurer.SetNameGenerator | src/main/java/org/mybatis/spring/mapper/MapperScannerConfigurer.java:337-339 | only nameGenerator changes, to the argument |
| ScannerConfigurer.MapperScannerConfigurer.SetDefaultScope | src/main/java/org/mybatis/spring/mapper/MapperScannerConfigurer.java:350-352 | only defaultScope changes, to the argument |
| ScannerConfigurer.MapperScannerConfigurer.AfterPropertiesSet | src/main/java/org/mybatis/spring/mapper/MapperScannerConfigurer.java:359-362 | fails exactly when basePackage is null, with the required-property message |
| ScannerConfigurer.MapperScannerConfigurer.ProcessPropertyPlaceHolders | src/main/java/org/mybatis/spring/mapper/MapperScannerConfigurer.java:428-464 | the fields overwritten one at a time end as PlaceholdersProcessed of the old settings |
| ScannerConfigurer.MapperScannerConfigurer.PostProcessBeanDefinitionRegistry | src/main/java/org/mybatis/spring/mapper/MapperScannerConfigurer.java:387-418 | placeholders are processed only when their flag is set; the scanner then receives the resulting settings as ConfigureScanner states, and scans the tokenized basePackage |

## Left out

- Dynamic proxy creation and the reflective `method.invoke` are left out. The interceptor runs one abstract operation whose outcome is a parameter.
- The template's pass-through methods (`selectOne`, `insert`, `getConnection` and the rest) are left out. Each only forwards to the session proxy.
- The template's `getMapper` and `getConfiguration` are not modelled as template members. `getConfiguration` reads the factory's configuration directly, and `getMapper` asks that configuration's mapper registry, whose lookup is `FactoryBean.MapperOf`.
- The internals of `SqlSessionUtils` (`getSqlSession`, `closeSqlSession`, `isSqlSessionTransactional`) are not part of this model. Acquisition and the transactional answer are inputs, and `closeSqlSession` is assumed not to throw.
- `ExceptionUtil.unwrapThrowable` and `MyBatisExceptionTranslator` are not part of this model. They are the `unwrap` and `translate` parameters.
- Concurrency and thread-local transaction binding are left out. The model covers one call on one thread.
- `SessionTemplate.Refuse`: the contract states the error kind, not the text of the message. The body builds the exact message "Manual <verb> is not allowed over a Spring managed SqlSession".
- Classpath scanning and filter registration of `ClassPathMapperScanner` are not part of this model. The scanner is reduced to the arguments of its setters.
- `StringUtils.tokenizeToStringArray` is the `tokenize` parameter.
- The environment's `resolvePlaceholders` is the `resolve` function of the placeholder context.
- The run of the PropertyResourceConfigurers over this bean's own definition, registered in a throwaway bean factory, is not part of this model. That run rewrites the definition in place; the property values it leaves are an input.
- `BeanUtils.instantiateClass` for a custom name generator is modelled as a value naming the class. Its instantiation failure is left out.
- `Configuration.addMapper` internals (annotation and XML parsing, the type must be an interface) are not part of this model. Whether the add fails is an input.
- SqlSessionDaoSupport's own check is not part of this model. Its outcome is a parameter of `CheckDaoConfig`.
- Logging and console output are left out, including the logged error in `checkDaoConfig`.
- `setResourceLoader` of the registrar has an empty body, and `postProcessBeanFactory` of the configurer only writes a console line. Both are left out.
- `getNameGenerator` of the configurer only returns a field, and is left out.
- `FactoryBean.MapperFactoryBean.GetObject` assumes the session of SqlSessionDaoSupport is set. Before a session factory or template is given, `getSqlSession()` is null and `getObject` throws a NullPointerException; the parent's check, an input here, refuses that state.
- `ScannerConfigurer.MapperScannerConfigurer.ProcessPropertyPlaceHolders` assumes the application context and its environment are present. Without an application context, `getBeansOfType` and `getEnvironment()` throw a NullPointerException; the container always sets the context before post-processing.
- `SessionTemplate.NewTemplateWithExecutor` and `SessionTemplate.NewTemplateWithFactory` assume a non-null factory has a configuration, and that configuration an environment. A factory without them throws a NullPointerException in Java; the model only covers a null factory.
- Bean-definition overriding rules of the registry are not part of this model. The registry records every registration in order.
- The demo configuration, test and mapper classes are left out.
- Java's 32-bit `int` index in `generateBaseBeanName` is modelled as an unbounded `nat`. A `@MapperScans` list never approaches 2^31 entries.

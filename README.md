# Bean-definition resolution and aspects, in Dafny

This project models two decision components of a small dependency-injection
and AOP container (the `core.di.beans.factory` packages):

- **`DefaultBeanDefinition`** decides how a bean class is wired. An
  injection-marked constructor wins and selects no fields. Otherwise the
  container collects the *eligible types*: the single parameter type of every
  injection-marked method, and the type of every injection-marked field. An
  injection-marked method that does not take exactly one parameter is a
  configuration error. Every declared field whose type is eligible is then
  selected, marked or not. The resolved mode follows the priority
  method > constructor > field > none. Method injection is never reported,
  because `getMethod` always answers `null`.
- **`Aspect`** pairs an immutable pointcut with an append-only advice list.
  The list is seeded with a no-op sentinel advice. It can be exported as an
  array, and `matches` delegates to the pointcut.

Reflection is replaced by plain data. A `BeanClass` value is a snapshot of
what reflection and the annotation scanner report about a class: its name,
the types it is assignable to, its injection-marked constructor, methods and
fields, and its declared fields. The Java `null` constructor is `None`. The
`IllegalStateException` is the `Failure(InjectMethodArity)` branch of a
`Result`.

Files:

- `Wrappers.dfy`: `Option` and `Result`.
- `DefaultBeanDefinition.dfy` (module `Support`): the metadata types, the
  immutable `BeanDefinition` with its mode classifier, the specification
  functions (`EligibleTypes`, `FieldsOfTypes`, `InjectFieldsOf`, `Resolve`),
  the loop-based methods that mirror the Java code, and the lemmas.
- `Aspect.dfy` (module `Aop`): the `Aspect` class.

Design choices:

- A `DefaultBeanDefinition` is never changed after its constructor, so it is
  the datatype `BeanDefinition`. Its getters are the datatype's fields. The
  Java constructor can throw, so it is the method `NewDefaultBeanDefinition`,
  which returns a `Result` and is proved equal to the function `Resolve`.
- The injection-marked methods and fields are Java `HashSet`s, whose iteration
  order is unspecified. They are Dafny `set`s, and the loops pick elements in
  an arbitrary order with `:|`. The proofs therefore hold for every order.
- The declared fields are a Java array and are a `seq`, scanned by index.
- `FactoryBean.class.isAssignableFrom(beanClazz)` is `IsAssignableFrom`:
  the class is `FactoryBean` or lists it among its supertypes.
- The aspect's advice list is a `seq` field that the methods reassign. The
  Java array arguments are Dafny arrays that are only read. The pointcut is a
  `const` of function type, so it cannot change after construction.

## Model

| member | source | states |
|---|---|---|
| Support.GetInjectConstructor | src/main/java/core/di/beans/factory/support/DefaultBeanDefinition.java:25-27 | the injection constructor is exactly the one the annotation scanner reports for the class, or none |
| Support.GetInjectPropertiesType | src/main/java/core/di/beans/factory/support/DefaultBeanDefinition.java:45-62 | fails exactly when some injection-marked method does not take one parameter; otherwise returns exactly the eligible-type set (method parameter types plus marked field types), for any iteration order |
| Support.GetInjectFields | src/main/java/core/di/beans/factory/support/DefaultBeanDefinition.java:29-43 | equals `InjectFieldsOf`: no fields when a constructor is given; otherwise the arity failure, or the declared fields whose type is eligible |
| Support.NewDefaultBeanDefinition | src/main/java/core/di/beans/factory/support/DefaultBeanDefinition.java:19-27 | the constructor's outcome equals `Resolve`: class, injection constructor and chosen fields, or the configuration error |
| Support.BeanDefinition.GetMethod | src/main/java/core/di/beans/factory/support/DefaultBeanDefinition.java:79-82 | there is never an injection method |
| Support.BeanDefinition.IsFactoryBeanType | src/main/java/core/di/beans/factory/support/DefaultBeanDefinition.java:84-87 | true exactly when the bean class is `FactoryBean` or has it among its supertypes |
| Support.BeanDefinition.GetResolvedInjectMode | src/main/java/core/di/beans/factory/support/DefaultBeanDefinition.java:89-104 | never method mode; constructor mode iff a constructor is present; field mode iff no constructor and a non-empty field set; no injection iff no constructor and no fields |
| Support.ConstructorWins | src/main/java/core/di/beans/factory/support/DefaultBeanDefinition.java:29-32 | with a marked constructor, resolution succeeds even with wrong-arity methods, selects no fields and reports constructor mode |
| Support.ResolveFailsIffBadArity | src/main/java/core/di/beans/factory/support/DefaultBeanDefinition.java:29-52 | resolution fails exactly when there is no constructor and some marked method's parameter count is not 1 |
| Support.EligibleTypesMembership | src/main/java/core/di/beans/factory/support/DefaultBeanDefinition.java:45-61 | a type is eligible iff it is the sole parameter type of a marked method or the type of a marked field |
| Support.SelectedFieldMembership | src/main/java/core/di/beans/factory/support/DefaultBeanDefinition.java:36-41 | without a constructor, a field is selected iff it is declared and its type is eligible |
| Support.UnmarkedFieldOfEligibleTypeSelected | src/main/java/core/di/beans/factory/support/DefaultBeanDefinition.java:36-41 | an unmarked declared field is selected when a marked field has the same type |
| Support.ResolvedIsValid | src/main/java/core/di/beans/factory/support/DefaultBeanDefinition.java:19-42 | every resolved definition keeps the class and its constructor, has no fields when it has a constructor, and selects only declared fields |
| Support.ResolvedModeClassification | src/main/java/core/di/beans/factory/support/DefaultBeanDefinition.java:95-103 | the resolved mode in terms of the class: constructor iff marked constructor; field iff none and some declared field has an eligible type; no injection otherwise; never method |
| Support.FooExample | src/main/java/core/di/beans/factory/support/DefaultBeanDefinition.java:34-41 | class `Foo` with marked field `bar: Bar` and unmarked `helper: Bar`, `name: String` selects `{bar, helper}` in field mode |
| Aop.Aspect.constructor | src/main/java/core/di/beans/factory/aop/Aspect.java:15-21 | keeps the given pointcut; the list is the sentinel followed by the given advices in order |
| Aop.Aspect.AddAdvice | src/main/java/core/di/beans/factory/aop/Aspect.java:23-25 | appends the advices in order, grows the list by exactly their number, leaves earlier entries and the sentinel in place |
| Aop.Aspect.ToArrayAdvice | src/main/java/core/di/beans/factory/aop/Aspect.java:27-29 | a fresh array with exactly the current list, sentinel first; the list is unchanged |
| Aop.Aspect.Matches | src/main/java/core/di/beans/factory/aop/Aspect.java:31-33 | returns exactly the pointcut's score for the same method and target |
| Aop.ConfigureAspect | src/main/java/core/di/beans/factory/aop/Aspect.java:16-29 | after construction and two `AddAdvice` calls, the exported array is the sentinel then every batch in call order, and the pointcut is unchanged |

## Left out

- Java reflection and `BeanFactoryUtils.getInjected*`: their answers are the fields of the input `BeanClass`, not behaviour that is verified. `BeanFactoryUtils` is not part of this model.
- The exception message of the arity failure: only the failure itself is modelled.
- The deferred null-pointer fault of `matches` with a `null` pointcut: Dafny references and function values are never null.
- A `null` advice array passed to the constructor or `addAdvice` (where `Arrays.asList` throws a `NullPointerException`) and `null` advice elements (stored, then exported by `toArrayAdvice`): the model's `array<Advice>` and `Advice` values cannot be null, so neither case is represented.
- The bodies of `Pointcut`, `Advice`, `NoOpAdvice` and cglib's `Callback`: the pointcut is an arbitrary function, the sentinel a distinguished constant, and advices are exported as the `Advice` values themselves.
- The arity failure is the same whichever wrong-arity method the loop meets first: the Java exception names no method, so the model records only that resolution fails.

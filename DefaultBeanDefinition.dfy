/** Bean-definition resolution: how the container decides to wire a bean class
    (constructor injection, field injection or none). Java reflection is
    replaced by a snapshot of the class's injection metadata, `BeanClass`. */
module Support {
  import opened Wrappers

  /** A Java class, named by its fully qualified name. */
  type TypeName = string

  /** A declared field. Two fields of one class differ by name, which is what
      `java.lang.reflect.Field` equality amounts to inside a single class. */
  datatype Field = Field(name: string, fieldType: TypeName)

  /** A method marked for injection, with its parameter types. */
  datatype Method = Method(name: string, paramTypes: seq<TypeName>)

  /** A constructor marked for injection. */
  datatype Constructor = Constructor(paramTypes: seq<TypeName>)

  /** What reflection and the injection-annotation scanner report about a class:
      - `supertypes`: every class and interface the class is assignable to, besides itself;
      - `injectedConstructor`: the injection-marked constructor, if any;
      - `injectedMethods`, `injectedFields`: the injection-marked methods and fields (Java sets);
      - `declaredFields`: every field the class declares, in declaration order. */
  datatype BeanClass = BeanClass(
    name: TypeName,
    supertypes: set<TypeName>,
    injectedConstructor: Option<Constructor>,
    injectedMethods: set<Method>,
    injectedFields: set<Field>,
    declaredFields: seq<Field>)

  /** The only failure of resolution: an injection-marked method whose
      parameter count is not one (an `IllegalStateException` in the Java code). */
  datatype ConfigError = InjectMethodArity

  /** The injection strategies, in priority order. */
  datatype InjectType = InjectMethod | InjectConstructor | InjectField | InjectNo

  /** The capability interface that marks factory beans. */
  const FactoryBean: TypeName := "core.aop.FactoryBean"

  /** `target.isAssignableFrom(clazz)`: the class is `target` or a subtype of it. */
  predicate IsAssignableFrom(target: TypeName, clazz: BeanClass)
  {
    target == clazz.name || target in clazz.supertypes
  }

  /** A resolved bean definition. The Java object is never changed after its
      constructor, so it is a value here; its three fields are the getters
      `getBeanClass`, `getInjectConstructor` and `getInjectFields`. */
  datatype BeanDefinition = BeanDefinition(
    beanClass: BeanClass,
    injectConstructor: Option<Constructor>,
    injectFields: set<Field>)
  {
    /** Constructor and field injection exclude each other, and only declared
        fields are ever selected. */
    ghost predicate Valid()
    {
      && (injectConstructor.Some? ==> injectFields == {})
      && (forall f :: f in injectFields ==> f in beanClass.declaredFields)
    }

    /** Method injection is not implemented: there is never an injection method. */
    function GetMethod(): (r: Option<Method>)
      ensures r == None
    {
      None
    }

    /** True exactly when the bean class implements the factory-bean capability. */
    predicate IsFactoryBeanType()
      ensures IsFactoryBeanType() <==> (beanClass.name == FactoryBean || FactoryBean in beanClass.supertypes)
    {
      IsAssignableFrom(FactoryBean, beanClass)
    }

    /** The injection mode, by priority method > constructor > field > none.
        Since `GetMethod` is always `None`, method mode is never reported. */
    function GetResolvedInjectMode(): (mode: InjectType)
      ensures mode != InjectMethod
      ensures mode == InjectConstructor <==> injectConstructor.Some?
      ensures mode == InjectField <==> injectConstructor.None? && injectFields != {}
      ensures mode == InjectNo <==> injectConstructor.None? && injectFields == {}
    {
      if GetMethod().Some? then InjectMethod
      else if injectConstructor.Some? then InjectConstructor
      else if injectFields != {} then InjectField
      else InjectNo
    }
  }

  // ---------------------------------------------------------------------------
  // Specification of resolution

  predicate HasSingleParam(m: Method)
  {
    |m.paramTypes| == 1
  }

  /** Every injection-marked method takes exactly one parameter. */
  predicate AllSingleParam(methods: set<Method>)
  {
    forall m :: m in methods ==> HasSingleParam(m)
  }

  /** The sole parameter types of the one-parameter methods. */
  function ParamTypes(methods: set<Method>): set<TypeName>
  {
    set m | m in methods && HasSingleParam(m) :: m.paramTypes[0]
  }

  /** The declared types of a set of fields. */
  function FieldTypes(fields: set<Field>): set<TypeName>
  {
    set f | f in fields :: f.fieldType
  }

  /** The types eligible for field injection: the parameter type of each
      injection-marked method together with the type of each injection-marked field. */
  function EligibleTypes(clazz: BeanClass): set<TypeName>
  {
    ParamTypes(clazz.injectedMethods) + FieldTypes(clazz.injectedFields)
  }

  /** The declared fields whose type is one of `types`. */
  function FieldsOfTypes(declared: seq<Field>, types: set<TypeName>): set<Field>
  {
    set f | f in declared && f.fieldType in types
  }

  /** The field set chosen for a class, given its injection constructor (if any). */
  function InjectFieldsOf(clazz: BeanClass, ctor: Option<Constructor>): Result<set<Field>, ConfigError>
  {
    if ctor.Some? then Success({})
    else if !AllSingleParam(clazz.injectedMethods) then Failure(InjectMethodArity)
    else Success(FieldsOfTypes(clazz.declaredFields, EligibleTypes(clazz)))
  }

  /** The bean definition built for a class, or the configuration error. */
  function Resolve(clazz: BeanClass): Result<BeanDefinition, ConfigError>
  {
    match InjectFieldsOf(clazz, clazz.injectedConstructor)
    case Success(fields) => Success(BeanDefinition(clazz, clazz.injectedConstructor, fields))
    case Failure(e) => Failure(e)
  }

  // ---------------------------------------------------------------------------
  // The resolution code

  /** The injection-marked constructor, as reported by the annotation scanner. */
  function GetInjectConstructor(clazz: BeanClass): (r: Option<Constructor>)
    ensures r == clazz.injectedConstructor
  {
    clazz.injectedConstructor
  }

  /** Collects the eligible types: fails on the first injection-marked method
      whose parameter count is not one, otherwise adds each method's parameter
      type and then each injection-marked field's type. */
  method GetInjectPropertiesType(clazz: BeanClass) returns (r: Result<set<TypeName>, ConfigError>)
    ensures r.Failure? <==> !AllSingleParam(clazz.injectedMethods)
    ensures r.Failure? ==> r.error == InjectMethodArity
    ensures r.Success? ==> r.value == EligibleTypes(clazz)
  {
    var injectProperties: set<TypeName> := {};
    var methods := clazz.injectedMethods;
    ghost var visited: set<Method> := {};
    while methods != {}
      invariant methods + visited == clazz.injectedMethods
      invariant methods !! visited
      invariant AllSingleParam(visited)
      invariant injectProperties == ParamTypes(visited)
      decreases methods
    {
      var m :| m in methods;
      if |m.paramTypes| != 1 {
        return Failure(InjectMethodArity);
      }
      injectProperties := injectProperties + {m.paramTypes[0]};
      methods := methods - {m};
      visited := visited + {m};
    }

    var fields := clazz.injectedFields;
    ghost var seen: set<Field> := {};
    while fields != {}
      invariant fields + seen == clazz.injectedFields
      invariant fields !! seen
      invariant injectProperties == ParamTypes(clazz.injectedMethods) + FieldTypes(seen)
      decreases fields
    {
      var f :| f in fields;
      injectProperties := injectProperties + {f.fieldType};
      fields := fields - {f};
      seen := seen + {f};
    }
    return Success(injectProperties);
  }

  /** With a constructor, no fields; otherwise every declared field whose type
      is eligible, whether or not the field itself is injection-marked. */
  method GetInjectFields(clazz: BeanClass, ctor: Option<Constructor>) returns (r: Result<set<Field>, ConfigError>)
    ensures r == InjectFieldsOf(clazz, ctor)
  {
    if ctor.Some? {
      return Success({});
    }
    var injectFields: set<Field> := {};
    var props := GetInjectPropertiesType(clazz);
    if props.Failure? {
      return Failure(props.error);
    }
    var injectProperties := props.value;
    var fields := clazz.declaredFields;
    for i := 0 to |fields|
      invariant injectFields == FieldsOfTypes(fields[..i], injectProperties)
    {
      assert fields[..i + 1] == fields[..i] + [fields[i]];
      if fields[i].fieldType in injectProperties {
        injectFields := injectFields + {fields[i]};
      }
    }
    assert fields[..|fields|] == fields;
    return Success(injectFields);
  }

  /** The `DefaultBeanDefinition` constructor: records the class, its
      injection constructor and the chosen fields, or fails where the Java code throws. */
  method NewDefaultBeanDefinition(clazz: BeanClass) returns (r: Result<BeanDefinition, ConfigError>)
    ensures r == Resolve(clazz)
  {
    var injectConstructor := GetInjectConstructor(clazz);
    var injectFields := GetInjectFields(clazz, injectConstructor);
    if injectFields.Failure? {
      return Failure(injectFields.error);
    }
    return Success(BeanDefinition(clazz, injectConstructor, injectFields.value));
  }

  // ---------------------------------------------------------------------------
  // Properties of resolution

  /** An injection constructor wins: resolution succeeds whatever methods are
      marked (even ones of the wrong arity), selects no fields and reports
      constructor mode. */
  lemma ConstructorWins(clazz: BeanClass)
    requires clazz.injectedConstructor.Some?
    ensures Resolve(clazz).Success?
    ensures Resolve(clazz).value.injectConstructor == clazz.injectedConstructor
    ensures Resolve(clazz).value.injectFields == {}
    ensures Resolve(clazz).value.GetResolvedInjectMode() == InjectConstructor
  {
  }

  /** Resolution fails exactly when there is no injection constructor and some
      injection-marked method does not take exactly one parameter. */
  lemma ResolveFailsIffBadArity(clazz: BeanClass)
    ensures Resolve(clazz).Failure? <==>
            clazz.injectedConstructor.None? &&
            exists m :: m in clazz.injectedMethods && |m.paramTypes| != 1
  {
  }

  /** A type is eligible exactly when it is the sole parameter type of an
      injection-marked method or the type of an injection-marked field. */
  lemma EligibleTypesMembership(clazz: BeanClass, t: TypeName)
    ensures t in EligibleTypes(clazz) <==>
            (exists m :: m in clazz.injectedMethods && m.paramTypes == [t]) ||
            (exists f :: f in clazz.injectedFields && f.fieldType == t)
  {
  }

  /** Without a constructor, a successful resolution selects a declared field
      exactly when its type is eligible. */
  lemma SelectedFieldMembership(clazz: BeanClass, f: Field)
    requires clazz.injectedConstructor.None?
    requires Resolve(clazz).Success?
    ensures f in Resolve(clazz).value.injectFields <==>
            f in clazz.declaredFields && f.fieldType in EligibleTypes(clazz)
  {
  }

  /** The field-selection quirk: a declared field that is not injection-marked is
      still selected when an injection-marked field has the same type. */
  lemma UnmarkedFieldOfEligibleTypeSelected(clazz: BeanClass, marked: Field, f: Field)
    requires clazz.injectedConstructor.None?
    requires AllSingleParam(clazz.injectedMethods)
    requires marked in clazz.injectedFields
    requires f in clazz.declaredFields && f !in clazz.injectedFields
    requires f.fieldType == marked.fieldType
    ensures Resolve(clazz).Success?
    ensures f in Resolve(clazz).value.injectFields
  {
  }

  /** Every definition that resolution produces keeps the invariant: constructor
      and field injection exclude each other, and the selected fields are
      declared fields. */
  lemma ResolvedIsValid(clazz: BeanClass)
    requires Resolve(clazz).Success?
    ensures Resolve(clazz).value.Valid()
    ensures Resolve(clazz).value.beanClass == clazz
    ensures Resolve(clazz).value.injectConstructor == clazz.injectedConstructor
  {
  }

  /** The mode of a resolved definition, in terms of the class alone:
      constructor mode when a constructor is marked, field mode when none is and
      some declared field has an eligible type, no injection otherwise. */
  lemma ResolvedModeClassification(clazz: BeanClass)
    requires Resolve(clazz).Success?
    ensures var mode := Resolve(clazz).value.GetResolvedInjectMode();
            && mode != InjectMethod
            && (mode == InjectConstructor <==> clazz.injectedConstructor.Some?)
            && (mode == InjectField <==>
                  clazz.injectedConstructor.None? &&
                  exists i :: 0 <= i < |clazz.declaredFields| && clazz.declaredFields[i].fieldType in EligibleTypes(clazz))
            && (mode == InjectNo <==>
                  clazz.injectedConstructor.None? &&
                  forall i :: 0 <= i < |clazz.declaredFields| ==> clazz.declaredFields[i].fieldType !in EligibleTypes(clazz))
  {
    if clazz.injectedConstructor.None? {
      var fields := Resolve(clazz).value.injectFields;
      if exists i :: 0 <= i < |clazz.declaredFields| && clazz.declaredFields[i].fieldType in EligibleTypes(clazz) {
        var i :| 0 <= i < |clazz.declaredFields| && clazz.declaredFields[i].fieldType in EligibleTypes(clazz);
        assert clazz.declaredFields[i] in fields;
      }
      if fields != {} {
        var f :| f in fields;
        var i :| 0 <= i < |clazz.declaredFields| && clazz.declaredFields[i] == f;
        assert clazz.declaredFields[i].fieldType in EligibleTypes(clazz);
      }
    }
  }

  /** A class `Foo` with no injection constructor, an injection-marked
      field `bar: Bar`, and unmarked declared fields `helper: Bar` and
      `name: String`: both fields of type `Bar` are selected, in field mode. */
  lemma FooExample()
    ensures var bar := Field("bar", "Bar");
            var helper := Field("helper", "Bar");
            var name := Field("name", "java.lang.String");
            var foo := BeanClass("Foo", {}, None, {}, {bar}, [bar, helper, name]);
            && Resolve(foo) == Success(BeanDefinition(foo, None, {bar, helper}))
            && Resolve(foo).value.GetResolvedInjectMode() == InjectField
  {
    var bar := Field("bar", "Bar");
    var helper := Field("helper", "Bar");
    var name := Field("name", "java.lang.String");
    var foo := BeanClass("Foo", {}, None, {}, {bar}, [bar, helper, name]);
    assert EligibleTypes(foo) == {"Bar"};
    assert name.fieldType !in EligibleTypes(foo);
    assert FieldsOfTypes(foo.declaredFields, EligibleTypes(foo)) == {bar, helper};
  }
}

/** The container metadata the adapter produces and reads back: property values
    of a bean definition (Spring's MutablePropertyValues, an ordered list looked up
    by name), bean definitions, and the registry that receives them. */
module Beans {
  import opened Common

  /** A class, named by its fully qualified name. */
  type ClassName = string

  /** The object a property value holds. */
  datatype Value =
    | NullValue
    | StringValue(s: string)
    /** TypedStringValue: a string kept unconverted until the bean is created; its own value may be null */
    | TypedString(typed: Option<string>)
    | BoolValue(b: bool)
    | ClassValue(cls: ClassName)
    /** an object created with BeanUtils.instantiateClass */
    | InstanceOf(cls: ClassName)

  datatype PropertyValue = PropertyValue(name: string, value: Value)

  /** MutablePropertyValues.getPropertyValue: the first property of that name, or null. */
  function Find(values: seq<PropertyValue>, name: string): (r: Option<PropertyValue>)
    ensures r.Some? ==> r.value in values && r.value.name == name
    ensures r.None? <==> forall q :: q in values ==> q.name != name
  {
    if values == [] then None
    else if values[0].name == name then Some(values[0])
    else Find(values[1..], name)
  }

  /** MutablePropertyValues.get: the value of the first property of that name, or null. */
  function Get(values: seq<PropertyValue>, name: string): Option<Value> {
    match Find(values, name)
    case Some(p) => Some(p.value)
    case None => None
  }

  /** The property found is the first of that name: every property before it has another name. */
  lemma {:induction false} FindFirst(values: seq<PropertyValue>, name: string)
    requires Find(values, name).Some?
    ensures exists i :: 0 <= i < |values| && values[i] == Find(values, name).value
                        && forall j :: 0 <= j < i ==> values[j].name != name
  {
    if values[0].name != name {
      FindFirst(values[1..], name);
      var i :| 0 <= i < |values[1..]| && values[1..][i] == Find(values[1..], name).value
               && forall j :: 0 <= j < i ==> values[1..][j].name != name;
      assert values[i + 1] == Find(values, name).value;
      assert forall j :: 0 <= j < i + 1 ==> values[j].name != name by {
        forall j | 0 <= j < i + 1
          ensures values[j].name != name
        {
          if j > 0 {
            assert values[j] == values[1..][j - 1];
          }
        }
      }
    } else {
      assert values[0] == Find(values, name).value;
    }
  }

  /** Looking a name up in a concatenation looks in the first part first. */
  lemma {:induction false} FindAppend(a: seq<PropertyValue>, b: seq<PropertyValue>, name: string)
    ensures Find(a + b, name) == if Find(a, name).Some? then Find(a, name) else Find(b, name)
  {
    if a != [] {
      assert (a + b)[0] == a[0];
      assert (a + b)[1..] == a[1..] + b;
      FindAppend(a[1..], b, name);
    } else {
      assert a + b == b;
    }
  }

  datatype BeanDefinition = BeanDefinition(beanClass: ClassName, properties: seq<PropertyValue>)

  datatype Registration = Registration(beanName: string, definition: BeanDefinition)

  /** The BeanDefinitionRegistry: it records every registerBeanDefinition call, in order. */
  class Registry {
    var registrations: seq<Registration>

    constructor ()
      ensures registrations == []
    {
      registrations := [];
    }

    method RegisterBeanDefinition(beanName: string, definition: BeanDefinition)
      modifies this
      ensures registrations == old(registrations) + [Registration(beanName, definition)]
    {
      registrations := registrations + [Registration(beanName, definition)];
    }
  }
}

/** JavaScript value semantics that the command builders depend on:
    an optional string (a property that may be `undefined`), the two
    different tests the code applies to it (`_.isUndefined` and truthiness),
    and property lookup on a plain object parsed from JSON. */
module Js {

  /** A property that is either `undefined` or holds a string. */
  datatype Option<+T> = None | Some(value: T)

  /** lodash `_.isUndefined`: only a missing property is undefined;
      the empty string is defined. */
  function IsUndefined<T>(o: Option<T>): (undefined: bool)
    ensures o.None? ==> undefined
    ensures o.Some? ==> !undefined
  {
    o.None?
  }

  /** JavaScript truthiness of an optional string: `undefined` and `""`
      are falsy, every other string is truthy. */
  function Truthy(o: Option<string>): (truthy: bool)
    ensures IsUndefined(o) ==> !truthy
    ensures o == Some("") ==> !truthy
    ensures !IsUndefined(o) ==> (truthy <==> o.value != "")
  {
    o.Some? && o.value != ""
  }

  /** `a || b` where `b` is a string: the left operand when it is truthy,
      otherwise the right one. */
  function Or(a: Option<string>, b: string): (r: string)
    ensures Truthy(a) ==> r == a.value
    ensures !Truthy(a) ==> r == b
  {
    if Truthy(a) then a.value else b
  }

  /** The property names every plain object inherits from
      `Object.prototype`; reading one of them on an object parsed from JSON
      yields a defined value even when the JSON has no such key. */
  const ObjectPrototypeNames: set<string> :=
    {"constructor", "__proto__", "hasOwnProperty", "isPrototypeOf",
     "propertyIsEnumerable", "toLocaleString", "toString", "valueOf",
     "__defineGetter__", "__defineSetter__", "__lookupGetter__", "__lookupSetter__"}

  /** `obj[key] !== undefined` for a plain object whose own properties are
      the map `obj` (JSON values are never `undefined`): an own key, or a
      name inherited from the prototype chain. */
  function PropertyDefined<V>(obj: map<string, V>, key: string): (defined: bool)
    ensures key in obj ==> defined
    ensures key in ObjectPrototypeNames ==> defined
    ensures key !in ObjectPrototypeNames ==> (defined <==> key in obj)
  {
    key in obj || key in ObjectPrototypeNames
  }
}

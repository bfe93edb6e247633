/** The `classnames` library, as far as the block calls it. Each argument is
    handled on its own and the results are concatenated; `ClassList` handles
    one object literal, given as its properties in source order. A plain
    string argument `s` behaves as the one-property literal `{ s: s }`, so it
    is kept exactly when it is not empty. As in JavaScript, a key written
    twice in one literal makes one property, placed where the key first
    appears and holding the last value written for it. The result lists every
    key whose value is truthy, in first-appearance order; the block's keys
    are never integer-like, so JavaScript's rule that such keys are listed
    first does not arise. The final join with spaces
    is left out: the list of class names stands for the class attribute. */
module ClassNames {
  import opened JsValue

  /** The value the object literal holds under `key`: the last one written. */
  function Lookup(props: seq<Property>, key: string): (v: Option<Value>)
    ensures v.Some? <==> key in KeysOf(props)
  {
    if props == [] then None
    else
      var later := Lookup(props[1..], key);
      if later.Some? then later
      else if props[0].key == key then Some(props[0].value)
      else None
  }

  function KeysOf(props: seq<Property>): set<string> {
    set i | 0 <= i < |props| :: props[i].key
  }

  /** Walk the object's keys in first-appearance order, skipping the keys in
      `seen` (already visited), and keep those whose final value is truthy. */
  function Keep(props: seq<Property>, seen: set<string>): (classes: seq<string>)
    ensures |classes| <= |props|
    ensures forall c :: c in classes ==> c in KeysOf(props) && c !in seen
  {
    if props == [] then []
    else
      var key := props[0].key;
      if key in seen then Keep(props[1..], seen)
      else
        var rest := Keep(props[1..], seen + {key});
        if Truthy(Lookup(props, key).value) then [key] + rest else rest
  }

  /** The class names produced from the object literal, in order. */
  function ClassList(props: seq<Property>): seq<string> {
    Keep(props, {})
  }

  /** A key not written by the first property has the same value in the
      literal as in the rest of it. */
  lemma LookupPastHead(props: seq<Property>, key: string)
    requires props != [] && props[0].key != key
    ensures Lookup(props, key) == Lookup(props[1..], key)
  {
  }

  lemma {:induction false} KeepMember(props: seq<Property>, seen: set<string>, c: string)
    ensures c in Keep(props, seen) <==>
      c !in seen && Lookup(props, c).Some? && Truthy(Lookup(props, c).value)
    decreases |props|
  {
    if props != [] {
      var key := props[0].key;
      if c != key {
        LookupPastHead(props, c);
      }
      if key in seen {
        KeepMember(props[1..], seen, c);
      } else {
        KeepMember(props[1..], seen + {key}, c);
      }
    }
  }

  /** A class name is produced exactly when the literal holds a truthy value
      under that key, that is, when the last property written with that key
      is truthy. */
  lemma ClassListMember(props: seq<Property>, c: string)
    ensures c in ClassList(props) <==> Lookup(props, c).Some? && Truthy(Lookup(props, c).value)
  {
    KeepMember(props, {}, c);
  }

  /** `{ a: true, a: false }` has the single property `a: false`, so no class
      is produced. */
  lemma DuplicateKeyLastWins()
    ensures ClassList([Property("a", Bool(true)), Property("a", Bool(false))]) == []
  {
    ClassListMember([Property("a", Bool(true)), Property("a", Bool(false))], "a");
  }
}

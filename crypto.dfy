/** The decryption of a JSON section (src/CryptoResolver.cs): a copy of
    the object is walked as Newtonsoft enumerates it, and every value that
    is the value of a property is replaced by its decrypted text. The walk
    is modelled on values: each function gives the new value of the node
    it visits, or None when a cast of a container to a string throws. */
module CryptoResolver {
  import opened Wrappers
  import Text
  import J = Json

  /** TextCrypter.DecryptText; None when it throws. */
  type Decrypt = string -> Option<string>

  const ResolveErrorMessage: string := "The resolve of the evaluate section has an error."

  /** What holds a node: a property, or an array with these items. */
  datatype Parent = InProperty | InArray(siblings: seq<J.Json>)

  predicate IsValue(j: J.Json) {
    !j.JArr? && !j.JObj?
  }

  predicate AllValues(items: seq<J.Json>) {
    forall k :: 0 <= k < |items| ==> IsValue(items[k])
  }

  /** `token.Value<string>() ?? ""` of a value: a null is "", a Boolean
      "True" or "False", a number its digits. */
  function TextOf(v: J.Json): string
    requires IsValue(v)
  {
    match v
    case JNull => ""
    case JBool(b) => if b then "True" else "False"
    case JInt(i) => Text.IntToString(i)
    case JStr(s) => s
  }

  /** GetDecyptText: a failing decryption keeps the text. */
  function DecryptOrKeep(d: Decrypt, s: string): (t: string)
    ensures d(s).None? ==> t == s
    ensures d(s).Some? ==> t == d(s).value
  {
    match d(s)
    case Some(p) => p
    case None => s
  }

  function Size(j: J.Json): nat {
    match j
    case JArr(items) => 1 + SizeItems(items)
    case JObj(ps) => 1 + SizeProps(ps)
    case _ => 1
  }

  function SizeItems(items: seq<J.Json>): nat {
    if items == [] then 0 else Size(items[0]) + SizeItems(items[1..])
  }

  function SizeProps(ps: seq<J.Prop>): nat {
    if ps == [] then 0 else 1 + Size(ps[0].value) + SizeProps(ps[1..])
  }

  /** ResolveJTokenInternal: a non-empty container has its grandchildren
      visited; an empty object is left alone; a value under a property is
      decrypted; a value in an array makes the code decrypt a copy of the
      array, casting every item to a string, so the array is unchanged
      unless it holds a container, whose cast throws. An empty array is
      cast to a string itself and throws. */
  function Token(d: Decrypt, t: J.Json, parent: Parent): (r: Option<J.Json>)
    decreases Size(t), 2
  {
    match t
    case JObj(ps) =>
      if ps == [] then Some(t)
      else
        (match ObjectValues(d, ps)
         case None => None
         case Some(qs) => Some(J.JObj(qs)))
    case JArr(items) =>
      if items == [] then None
      else
        (match ArrayGrandchildren(d, items)
         case None => None
         case Some(qs) => Some(J.JArr(qs)))
    case _ =>
      match parent
      case InProperty => Some(J.JStr(DecryptOrKeep(d, TextOf(t))))
      case InArray(siblings) => if AllValues(siblings) then Some(t) else None
  }

  /** One child of the tokens ResolveInternal is given: an array has each
      of its items resolved, anything else is resolved itself. */
  function Over(d: Decrypt, c: J.Json, parent: Parent): (r: Option<J.Json>)
    decreases Size(c), 3
  {
    if c.JArr? then
      match Items(d, c.items, c.items)
      case None => None
      case Some(qs) => Some(J.JArr(qs))
    else Token(d, c, parent)
  }

  /** ResolveInternal over the properties of an object: the value of each
      property is visited with Over. */
  function ObjectValues(d: Decrypt, ps: seq<J.Prop>): (r: Option<seq<J.Prop>>)
    decreases SizeProps(ps), 5
  {
    if ps == [] then Some([])
    else match Over(d, ps[0].value, InProperty)
      case None => None
      case Some(v) =>
        match ObjectValues(d, ps[1..])
        case None => None
        case Some(rest) => Some([ps[0].(value := v)] + rest)
  }

  /** Token on each item of an array. */
  function Items(d: Decrypt, items: seq<J.Json>, siblings: seq<J.Json>): (r: Option<seq<J.Json>>)
    decreases SizeItems(items), 5
  {
    if items == [] then Some([])
    else match Token(d, items[0], InArray(siblings))
      case None => None
      case Some(v) =>
        match Items(d, items[1..], siblings)
        case None => None
        case Some(rest) => Some([v] + rest)
  }

  /** Over on each item of an array. */
  function OverEach(d: Decrypt, items: seq<J.Json>, siblings: seq<J.Json>): (r: Option<seq<J.Json>>)
    decreases SizeItems(items), 5
  {
    if items == [] then Some([])
    else match Over(d, items[0], InArray(siblings))
      case None => None
      case Some(v) =>
        match OverEach(d, items[1..], siblings)
        case None => None
        case Some(rest) => Some([v] + rest)
  }

  /** ResolveInternal over the items of an array, which visits their
      children: the properties of an object item, the items of an array
      item; a value item has none. */
  function ArrayGrandchildren(d: Decrypt, items: seq<J.Json>): (r: Option<seq<J.Json>>)
    decreases SizeItems(items), 5
  {
    if items == [] then Some([])
    else
      assert SizeItems(items) == Size(items[0]) + SizeItems(items[1..]);
      var first: Option<J.Json> :=
        match items[0]
        case JObj(ps) =>
          assert Size(items[0]) == 1 + SizeProps(ps);
          (match Properties(d, ps)
           case None => None
           case Some(qs) => Some(J.JObj(qs)))
        case JArr(sub) =>
          assert Size(items[0]) == 1 + SizeItems(sub);
          (match OverEach(d, sub, sub)
           case None => None
           case Some(qs) => Some(J.JArr(qs)))
        case _ => Some(items[0]);
      match first
      case None => None
      case Some(v) =>
        match ArrayGrandchildren(d, items[1..])
        case None => None
        case Some(rest) => Some([v] + rest)
  }

  /** Token on each property of an object, as a token of its own. */
  function Properties(d: Decrypt, ps: seq<J.Prop>): (r: Option<seq<J.Prop>>)
    decreases SizeProps(ps), 5
  {
    if ps == [] then Some([])
    else match Property(d, ps[0])
      case None => None
      case Some(p) =>
        match Properties(d, ps[1..])
        case None => None
        case Some(rest) => Some([p] + rest)
  }

  /** A property visited as a token: it has values, so its value's
      children are visited, and a plain value under it is not decrypted. */
  function Property(d: Decrypt, p: J.Prop): (r: Option<J.Prop>)
    decreases 1 + Size(p.value), 4
  {
    match p.value
    case JObj(ps) =>
      (match Properties(d, ps)
       case None => None
       case Some(qs) => Some(p.(value := J.JObj(qs))))
    case JArr(items) =>
      (match OverEach(d, items, items)
       case None => None
       case Some(qs) => Some(p.(value := J.JArr(qs))))
    case _ => Some(p)
  }

  /** Resolve on the properties of the object (None: a null object):
      without a key the argument comes back as it is; otherwise a resolved
      copy, and any failure of the walk is rethrown with one message. */
  function Resolve(crypter: Option<Decrypt>, value: Option<seq<J.Prop>>): (r: Result<Option<seq<J.Prop>>>)
    ensures crypter.None? ==> r == Success(value)
    ensures crypter.Some? && value.None? ==> r == Success(None)
    ensures r.Failure? ==> r.error == ResolveErrorMessage
    ensures crypter.Some? && value.Some? ==>
      (r.Success? <==> ObjectValues(crypter.value, value.value).Some?)
  {
    if crypter.None? then Success(value)
    else if value.None? then Success(None)
    else match ObjectValues(crypter.value, value.value)
      case None => Failure(ResolveErrorMessage)
      case Some(ps) => Success(Some(ps))
  }

  /** The resolved object has the same properties in the same order; a
      value under a property becomes the decrypted text of that value. */
  lemma {:induction false} ObjectValuesShape(d: Decrypt, ps: seq<J.Prop>)
    ensures var r := ObjectValues(d, ps);
      r.Some? ==>
        && |r.value| == |ps|
        && (forall k :: 0 <= k < |ps| ==> r.value[k].name == ps[k].name)
        && (forall k :: 0 <= k < |ps| && IsValue(ps[k].value) ==>
              r.value[k].value == J.JStr(DecryptOrKeep(d, TextOf(ps[k].value))))
        && (forall k :: 0 <= k < |ps| ==> Some(r.value[k].value) == Over(d, ps[k].value, InProperty))
    decreases |ps|
  {
    if ps != [] {
      ObjectValuesShape(d, ps[1..]);
      var r := ObjectValues(d, ps);
      if r.Some? {
        var rest := ObjectValues(d, ps[1..]).value;
        assert r.value == [ps[0].(value := Over(d, ps[0].value, InProperty).value)] + rest;
        assert forall k :: 1 <= k < |ps| ==> ps[k] == ps[1..][k - 1] && r.value[k] == rest[k - 1];
        forall k | 0 <= k < |ps| && IsValue(ps[k].value)
          ensures r.value[k].value == J.JStr(DecryptOrKeep(d, TextOf(ps[k].value)))
        {
          OverValue(d, ps[k].value);
        }
      }
    }
  }

  /** A value under a property becomes its decrypted text. */
  lemma OverValue(d: Decrypt, v: J.Json)
    requires IsValue(v)
    ensures Over(d, v, InProperty) == Some(J.JStr(DecryptOrKeep(d, TextOf(v))))
  {
  }

  /** The walk fails exactly when the visit of some property value does. */
  lemma {:induction false} ObjectValuesFails(d: Decrypt, ps: seq<J.Prop>)
    ensures ObjectValues(d, ps).None? <==> exists k :: 0 <= k < |ps| && Over(d, ps[k].value, InProperty).None?
    decreases |ps|
  {
    if ps != [] && Over(d, ps[0].value, InProperty).Some? {
      ObjectValuesFails(d, ps[1..]);
      assert ObjectValues(d, ps).None? <==> ObjectValues(d, ps[1..]).None?;
      if ObjectValues(d, ps[1..]).None? {
        var k :| 0 <= k < |ps[1..]| && Over(d, ps[1..][k].value, InProperty).None?;
        assert ps[k + 1] == ps[1..][k];
      }
      if exists k :: 0 <= k < |ps| && Over(d, ps[k].value, InProperty).None? {
        var k :| 0 <= k < |ps| && Over(d, ps[k].value, InProperty).None?;
        assert k > 0 && ps[1..][k - 1] == ps[k];
      }
    }
  }

  /** A value in an array is never decrypted: the items are unchanged. */
  lemma {:induction false} ValueItemsUnchanged(d: Decrypt, items: seq<J.Json>, siblings: seq<J.Json>)
    requires AllValues(items) && AllValues(siblings)
    ensures Items(d, items, siblings) == Some(items)
    decreases |items|
  {
    if items != [] {
      ValueItemsUnchanged(d, items[1..], siblings);
      assert [items[0]] + items[1..] == items;
    }
  }

  /** A value in an array beside a container makes the walk throw. */
  lemma {:induction false} MixedItemsFail(d: Decrypt, items: seq<J.Json>, k: nat)
    requires k < |items| && IsValue(items[k]) && !AllValues(items)
    ensures Items(d, items, items).None?
  {
    ItemsFailAt(d, items, items, k);
  }

  lemma {:induction false} ItemsFailAt(d: Decrypt, items: seq<J.Json>, siblings: seq<J.Json>, k: nat)
    requires k < |items| && Token(d, items[k], InArray(siblings)).None?
    ensures Items(d, items, siblings).None?
    decreases k
  {
    if k > 0 {
      assert items[1..][k - 1] == items[k];
      ItemsFailAt(d, items[1..], siblings, k - 1);
    }
  }

  lemma ObjectValuesCons(d: Decrypt, p: J.Prop, ps: seq<J.Prop>)
    ensures ObjectValues(d, [p] + ps) ==
      match Over(d, p.value, InProperty)
      case None => None
      case Some(v) =>
        (match ObjectValues(d, ps)
         case None => None
         case Some(rest) => Some([p.(value := v)] + rest))
  {
    assert ([p] + ps)[0] == p && ([p] + ps)[1..] == ps;
  }

  lemma ItemsCons(d: Decrypt, x: J.Json, xs: seq<J.Json>, siblings: seq<J.Json>)
    ensures Items(d, [x] + xs, siblings) ==
      match Token(d, x, InArray(siblings))
      case None => None
      case Some(v) =>
        (match Items(d, xs, siblings)
         case None => None
         case Some(rest) => Some([v] + rest))
  {
    assert ([x] + xs)[0] == x && ([x] + xs)[1..] == xs;
  }

  lemma PropertiesCons(d: Decrypt, p: J.Prop, ps: seq<J.Prop>)
    ensures Properties(d, [p] + ps) ==
      match Property(d, p)
      case None => None
      case Some(q) =>
        (match Properties(d, ps)
         case None => None
         case Some(rest) => Some([q] + rest))
  {
    assert ([p] + ps)[0] == p && ([p] + ps)[1..] == ps;
  }

  lemma ObjectValuesSingle(d: Decrypt, p: J.Prop)
    ensures ObjectValues(d, [p]) ==
      match Over(d, p.value, InProperty)
      case None => None
      case Some(v) => Some([p.(value := v)])
  {
    ObjectValuesCons(d, p, []);
    assert ObjectValues(d, []) == Some([]);
    assert [p] + [] == [p];
    if Over(d, p.value, InProperty).Some? {
      var v := Over(d, p.value, InProperty).value;
      assert [p.(value := v)] + [] == [p.(value := v)];
    }
  }

  lemma ItemsSingle(d: Decrypt, x: J.Json, siblings: seq<J.Json>)
    ensures Items(d, [x], siblings) ==
      match Token(d, x, InArray(siblings))
      case None => None
      case Some(v) => Some([v])
  {
    ItemsCons(d, x, [], siblings);
    assert Items(d, [], siblings) == Some([]);
    assert [x] + [] == [x];
    if Token(d, x, InArray(siblings)).Some? {
      var v := Token(d, x, InArray(siblings)).value;
      assert [v] + [] == [v];
    }
  }

  lemma PropertiesSingle(d: Decrypt, p: J.Prop)
    ensures Properties(d, [p]) ==
      match Property(d, p)
      case None => None
      case Some(q) => Some([q])
  {
    PropertiesCons(d, p, []);
    assert Properties(d, []) == Some([]);
    assert [p] + [] == [p];
    if Property(d, p).Some? {
      var q := Property(d, p).value;
      assert [q] + [] == [q];
    }
  }

  /** The resolve of a property whose value is an array of strings leaves
      the strings as they are, while a string property beside it is
      decrypted. */
  lemma ArrayStringsNotDecrypted(d: Decrypt, s: string, a: string)
    ensures var ps := [J.Prop("list", J.JArr([J.JStr(a)])), J.Prop("key", J.JStr(s))];
      Resolve(Some(d), Some(ps)) ==
        Success(Some([J.Prop("list", J.JArr([J.JStr(a)])), J.Prop("key", J.JStr(DecryptOrKeep(d, s)))]))
  {
    var items := [J.JStr(a)];
    var p1 := J.Prop("list", J.JArr(items));
    var p2 := J.Prop("key", J.JStr(s));
    var q2 := J.Prop("key", J.JStr(DecryptOrKeep(d, s)));
    ValueItemsUnchanged(d, items, items);
    assert Over(d, J.JArr(items), InProperty) == Some(J.JArr(items));
    OverValue(d, J.JStr(s));
    ObjectValuesSingle(d, p2);
    assert ObjectValues(d, [p2]) == Some([q2]);
    assert [p1, p2] == [p1] + [p2];
    ObjectValuesCons(d, p1, [p2]);
    assert ObjectValues(d, [p1, p2]) == Some([p1] + [q2]);
    assert [p1] + [q2] == [p1, q2];
  }

  /** An object directly in an array is resolved, but one in an array in
      an array is skipped: its string stays encrypted. */
  lemma NestedArraySkipsLevel(d: Decrypt, s: string)
    requires d(s).Some? && d(s).value != s
    ensures var inner := J.JObj([J.Prop("key", J.JStr(s))]);
      && Resolve(Some(d), Some([J.Prop("list", J.JArr([inner]))])) ==
           Success(Some([J.Prop("list", J.JArr([J.JObj([J.Prop("key", J.JStr(d(s).value))])]))]))
      && Resolve(Some(d), Some([J.Prop("list", J.JArr([J.JArr([inner])]))])) ==
           Success(Some([J.Prop("list", J.JArr([J.JArr([inner])]))]))
  {
    var key := J.Prop("key", J.JStr(s));
    var inner := J.JObj([key]);
    var decrypted := J.JObj([J.Prop("key", J.JStr(d(s).value))]);
    OverValue(d, J.JStr(s));
    ObjectValuesSingle(d, key);
    assert ObjectValues(d, [key]) == Some([J.Prop("key", J.JStr(d(s).value))]);
    assert Token(d, inner, InArray([inner])) == Some(decrypted);
    ItemsSingle(d, inner, [inner]);
    assert Items(d, [inner], [inner]) == Some([decrypted]);
    var p1 := J.Prop("list", J.JArr([inner]));
    assert Over(d, p1.value, InProperty) == Some(J.JArr([decrypted]));
    ObjectValuesSingle(d, p1);

    PropertiesSingle(d, key);
    assert Properties(d, [key]) == Some([key]);
    assert [inner][0] == inner && [inner][1..] == [];
    assert ArrayGrandchildren(d, []) == Some([]);
    assert [inner] + [] == [inner];
    assert ArrayGrandchildren(d, [inner]) == Some([inner]);
    var outer := J.JArr([inner]);
    assert Token(d, outer, InArray([outer])) == Some(outer);
    ItemsSingle(d, outer, [outer]);
    assert Items(d, [outer], [outer]) == Some([outer]);
    var p2 := J.Prop("list", J.JArr([outer]));
    assert Over(d, p2.value, InProperty) == Some(J.JArr([outer]));
    ObjectValuesSingle(d, p2);
  }

  /** A non-string value under a property becomes text: true becomes
      "True" when it does not decrypt, null becomes "". */
  lemma ValuesBecomeText(d: Decrypt)
    requires d("True").None? && d("").None?
    ensures Resolve(Some(d), Some([J.Prop("flag", J.JBool(true)), J.Prop("none", J.JNull)])) ==
      Success(Some([J.Prop("flag", J.JStr("True")), J.Prop("none", J.JStr(""))]))
  {
    var p1 := J.Prop("flag", J.JBool(true));
    var p2 := J.Prop("none", J.JNull);
    var q1 := J.Prop("flag", J.JStr("True"));
    var q2 := J.Prop("none", J.JStr(""));
    OverValue(d, J.JBool(true));
    OverValue(d, J.JNull);
    ObjectValuesSingle(d, p2);
    assert ObjectValues(d, [p2]) == Some([q2]);
    assert [p1, p2] == [p1] + [p2];
    ObjectValuesCons(d, p1, [p2]);
    assert ObjectValues(d, [p1, p2]) == Some([q1] + [q2]);
    assert [q1] + [q2] == [q1, q2];
  }

  /** An empty array as an array item is cast to a string and throws. */
  lemma EmptyArrayItemFails(d: Decrypt)
    ensures Resolve(Some(d), Some([J.Prop("list", J.JArr([J.JArr([])]))])) == Failure(ResolveErrorMessage)
  {
    assert Token(d, J.JArr([]), InArray([J.JArr([])])).None?;
    ItemsSingle(d, J.JArr([]), [J.JArr([])]);
    ObjectValuesSingle(d, J.Prop("list", J.JArr([J.JArr([])])));
  }

  /** The resolver: its crypter exists when the key file does, and it
      keeps the copy it resolved. */
  class Resolver {
    const crypter: Option<Decrypt>
    var json: Option<seq<J.Prop>>

    /** `existing` are the files that exist; `load` reads a key file. */
    constructor(privateKeyPath: Option<string>, existing: set<string>, load: string -> Decrypt)
      ensures crypter == if privateKeyPath.Some? && privateKeyPath.value in existing
                         then Some(load(privateKeyPath.value)) else None
      ensures json.None?
    {
      if privateKeyPath.Some? && privateKeyPath.value in existing {
        crypter := Some(load(privateKeyPath.value));
      } else {
        crypter := None;
      }
      json := None;
    }

    /** The argument itself is never changed: the walk works on the copy
        kept in `json`. */
    method ResolveObject(value: Option<seq<J.Prop>>) returns (r: Result<Option<seq<J.Prop>>>)
      modifies this
      ensures r == Resolve(crypter, value)
      ensures crypter.None? || value.None? ==> json == old(json)
      ensures r.Success? && crypter.Some? && value.Some? ==> json == r.value
    {
      if crypter.None? {
        return Success(value);
      }
      if value.None? {
        return Success(None);
      }
      json := value;
      var resolved := ObjectValues(crypter.value, json.value);
      if resolved.None? {
        return Failure(ResolveErrorMessage);
      }
      json := resolved;
      r := Success(json);
    }
  }
}

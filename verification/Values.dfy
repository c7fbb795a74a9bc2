/** Runtime values and the order that sort keys are compared by. */
module Values {

  datatype ValueType = NullType | BooleanType | IntegerType | FloatingType | StringType

  datatype Value =
    | Null
    | Int(i: int)
    | Float(f: real)
    | Bool(b: bool)
    | Str(s: string)
  {
    function Type(): ValueType {
      match this
      case Null => NullType
      case Int(_) => IntegerType
      case Float(_) => FloatingType
      case Bool(_) => BooleanType
      case Str(_) => StringType
    }

    /** The position of the alternative in the variant: values of different alternatives compare by it. */
    function Index(): nat {
      match this
      case Null => 0
      case Int(_) => 1
      case Float(_) => 2
      case Bool(_) => 3
      case Str(_) => 4
    }
  }

  type Row = seq<Value>
  type Key = seq<Value>

  ghost predicate TotalOrder<T(!new)>(le: (T, T) -> bool) {
    && (forall x, y :: le(x, y) || le(y, x))
    && (forall x, y :: le(x, y) && le(y, x) ==> x == y)
    && (forall x, y, z :: le(x, y) && le(y, z) ==> le(x, z))
  }

  /** Lexicographic comparison of two vectors; a proper prefix is smaller. */
  predicate LexLe<T(==)>(le: (T, T) -> bool, a: seq<T>, b: seq<T>) {
    if a == [] then true
    else if b == [] then false
    else if a[0] == b[0] then LexLe(le, a[1..], b[1..])
    else le(a[0], b[0])
  }

  predicate CharLe(a: char, b: char) { a <= b }

  predicate ValueLe(a: Value, b: Value) {
    match (a, b)
    case (Int(x), Int(y)) => x <= y
    case (Float(x), Float(y)) => x <= y
    case (Bool(x), Bool(y)) => x ==> y
    case (Str(x), Str(y)) => LexLe(CharLe, x, y)
    case _ => a.Index() <= b.Index()
  }

  predicate KeyLe(a: Key, b: Key) { LexLe(ValueLe, a, b) }

  lemma {:induction false} LexTotal<T(!new)>(le: (T, T) -> bool, a: seq<T>, b: seq<T>)
    requires TotalOrder(le)
    ensures LexLe(le, a, b) || LexLe(le, b, a)
  {
    if a != [] && b != [] && a[0] == b[0] {
      LexTotal(le, a[1..], b[1..]);
    }
  }

  lemma {:induction false} LexAntisymmetric<T(!new)>(le: (T, T) -> bool, a: seq<T>, b: seq<T>)
    requires TotalOrder(le)
    requires LexLe(le, a, b) && LexLe(le, b, a)
    ensures a == b
  {
    if a != [] && b != [] {
      assert a[0] == b[0];
      LexAntisymmetric(le, a[1..], b[1..]);
      assert a == [a[0]] + a[1..] && b == [b[0]] + b[1..];
    }
  }

  lemma {:induction false} LexTransitive<T(!new)>(le: (T, T) -> bool, a: seq<T>, b: seq<T>, c: seq<T>)
    requires TotalOrder(le)
    requires LexLe(le, a, b) && LexLe(le, b, c)
    ensures LexLe(le, a, c)
  {
    if a != [] && b != [] && c != [] && a[0] == b[0] == c[0] {
      LexTransitive(le, a[1..], b[1..], c[1..]);
    }
  }

  lemma ValueOrder()
    ensures TotalOrder(ValueLe)
  {
    assert TotalOrder(CharLe);
    forall x: Value, y: Value ensures ValueLe(x, y) || ValueLe(y, x) {
      if x.Str? && y.Str? { LexTotal(CharLe, x.s, y.s); }
    }
    forall x: Value, y: Value | ValueLe(x, y) && ValueLe(y, x) ensures x == y {
      if x.Str? && y.Str? { LexAntisymmetric(CharLe, x.s, y.s); }
    }
    forall x: Value, y: Value, z: Value | ValueLe(x, y) && ValueLe(y, z) ensures ValueLe(x, z) {
      if x.Str? && y.Str? && z.Str? { LexTransitive(CharLe, x.s, y.s, z.s); }
    }
  }

  /** Sort keys are totally ordered, whatever mixture of types they hold. */
  lemma KeyOrder()
    ensures TotalOrder(KeyLe)
  {
    ValueOrder();
    forall x: Key, y: Key ensures KeyLe(x, y) || KeyLe(y, x) { LexTotal(ValueLe, x, y); }
    forall x: Key, y: Key | KeyLe(x, y) && KeyLe(y, x) ensures x == y { LexAntisymmetric(ValueLe, x, y); }
    forall x: Key, y: Key, z: Key | KeyLe(x, y) && KeyLe(y, z) ensures KeyLe(x, z) {
      LexTransitive(ValueLe, x, y, z);
    }
  }

  /** Key `a` may stand before key `b` in output sorted in the given direction. */
  predicate InOrder(desc: bool, a: Key, b: Key) {
    if desc then KeyLe(b, a) else KeyLe(a, b)
  }

  /** `InOrder` for one triple of keys, so that callers need not quantify over all of them. */
  lemma InOrderFacts(desc: bool, a: Key, b: Key, c: Key)
    ensures InOrder(desc, a, a)
    ensures InOrder(desc, a, b) || InOrder(desc, b, a)
    ensures InOrder(desc, a, b) && InOrder(desc, b, a) ==> a == b
    ensures InOrder(desc, a, b) && InOrder(desc, b, c) ==> InOrder(desc, a, c)
  {
    KeyOrder();
  }
}

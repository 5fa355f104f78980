/** What the proposal-domain data classes share: datetimes held as their ISO text, and reading
    typed fields out of the dict `from_dict` is given. */
module Records {
  import opened Wrappers
  import opened Dicts
  import opened Json

  /** A `datetime`, held as its `isoformat()` text, which is never empty. */
  type DateTime = s: string | s != "" witness "1970-01-01T00:00:00"

  /** `datetime.fromisoformat`: None where Python raises ValueError. */
  type IsoParser = string -> Option<DateTime>

  /** The parser reads the text `isoformat()` wrote for the datetime `d` back as `d`. */
  predicate ReadsBack(parse: IsoParser, d: DateTime) {
    parse(d) == Some(d)
  }

  /** `data[key]` for a text field: KeyError when absent; a value of another JSON type is refused
      (Err), since fields are typed here. */
  function RequiredStr(data: Object, key: string): (r: Result<string>)
    ensures r.Ok? <==> Get(data, key).Some? && Get(data, key).value.Str?
    ensures r.Ok? ==> Get(data, key) == Some(Str(r.value))
    ensures !HasKey(data, key) ==> r == Err("KeyError: " + key)
  {
    match Get<Value>(data, key)
    case None => Err("KeyError: " + key)
    case Some(Str(s)) => Ok(s)
    case Some(_) => Err("ill-typed field: " + key)
  }

  /** A text stored under the key is read back. */
  lemma RequiredStrOf(data: Object, key: string, s: string)
    requires Get(data, key) == Some(Str(s))
    ensures RequiredStr(data, key) == Ok(s)
  {
  }

  /** An optional text stored under the key, null for none, is read back. */
  lemma OptionalStrOf(data: Object, key: string, o: Option<string>)
    requires Get(data, key) == Some(OptStr(o))
    ensures OptionalStr(data, key) == Ok(o)
  {
  }

  /** A text stored under the key is read back whatever the default. */
  lemma StrOrOf(data: Object, key: string, s: string, default: string)
    requires Get(data, key) == Some(Str(s))
    ensures StrOr(data, key, default) == Ok(s)
  {
  }

  /** A flag stored under the key is read back whatever the default. */
  lemma BoolOrOf(data: Object, key: string, b: bool, default: bool)
    requires Get(data, key) == Some(Bool(b))
    ensures BoolOr(data, key, default) == Ok(b)
  {
  }

  /** A dict stored under the key is read back whatever the default. */
  lemma ObjOrOf(data: Object, key: string, o: Object, default: Object)
    requires Get(data, key) == Some(Obj(o))
    ensures ObjOr(data, key, default) == Ok(o)
  {
  }

  /** A time written as its ISO text is read back by a parser that reads its own text. */
  lemma RequiredTimeOf(data: Object, key: string, parse: IsoParser, d: DateTime)
    requires ReadsBack(parse, d) && Get(data, key) == Some(Str(d))
    ensures RequiredTime(data, key, parse) == Ok(d)
  {
  }

  /** `data.get(key)` for an optional text field: absent and null both give None. */
  function OptionalStr(data: Object, key: string): (r: Result<Option<string>>)
    ensures !HasKey(data, key) ==> r == Ok(None)
    ensures Get(data, key) == Some(Null) ==> r == Ok(None)
    ensures forall s :: Get(data, key) == Some(Str(s)) ==> r == Ok(Some(s))
  {
    match Get<Value>(data, key)
    case None => Ok(None)
    case Some(Null) => Ok(None)
    case Some(Str(s)) => Ok(Some(s))
    case Some(_) => Err("ill-typed field: " + key)
  }

  /** `data.get(key, default)` for a text field. */
  function StrOr(data: Object, key: string, default: string): (r: Result<string>)
    ensures !HasKey(data, key) ==> r == Ok(default)
    ensures forall s :: Get(data, key) == Some(Str(s)) ==> r == Ok(s)
  {
    match Get<Value>(data, key)
    case None => Ok(default)
    case Some(Str(s)) => Ok(s)
    case Some(_) => Err("ill-typed field: " + key)
  }

  /** `data.get(key, default)` for a boolean field. */
  function BoolOr(data: Object, key: string, default: bool): (r: Result<bool>)
    ensures !HasKey(data, key) ==> r == Ok(default)
    ensures forall b :: Get(data, key) == Some(Bool(b)) ==> r == Ok(b)
  {
    match Get<Value>(data, key)
    case None => Ok(default)
    case Some(Bool(b)) => Ok(b)
    case Some(_) => Err("ill-typed field: " + key)
  }

  /** `data.get(key, default)` for a dict field. */
  function ObjOr(data: Object, key: string, default: Object): (r: Result<Object>)
    ensures !HasKey(data, key) ==> r == Ok(default)
    ensures forall o :: Get(data, key) == Some(Obj(o)) ==> r == Ok(o)
  {
    match Get<Value>(data, key)
    case None => Ok(default)
    case Some(Obj(o)) => Ok(o)
    case Some(_) => Err("ill-typed field: " + key)
  }

  /** `created_at` read back: text goes through `fromisoformat`; KeyError when absent. */
  function RequiredTime(data: Object, key: string, parse: IsoParser): (r: Result<DateTime>)
    ensures !HasKey(data, key) ==> r == Err("KeyError: " + key)
    ensures forall d: DateTime :: ReadsBack(parse, d) && Get(data, key) == Some(Str(d)) ==> r == Ok(d)
  {
    match Get<Value>(data, key)
    case None => Err("KeyError: " + key)
    case Some(Str(s)) =>
      (match parse(s)
       case Some(d) => Ok(d)
       case None => Err("ValueError: Invalid isoformat string"))
    case Some(_) => Err("ill-typed field: " + key)
  }

  /** `data.get(key, default)` for an integer field. */
  function IntOr(data: Object, key: string, default: int): (r: Result<int>)
    ensures !HasKey(data, key) ==> r == Ok(default)
    ensures forall i :: Get(data, key) == Some(Int(i)) ==> r == Ok(i)
  {
    match Get<Value>(data, key)
    case None => Ok(default)
    case Some(Int(i)) => Ok(i)
    case Some(_) => Err("ill-typed field: " + key)
  }

  /** A list of texts as JSON. */
  function StrList(xs: seq<string>): (v: Value)
    ensures v.Arr? && |v.items| == |xs| && forall i :: 0 <= i < |xs| ==> v.items[i] == Str(xs[i])
  {
    Arr(seq(|xs|, i requires 0 <= i < |xs| => Str(xs[i])))
  }

  /** A JSON list of texts read back; None for anything else. */
  function ReadStrList(items: seq<Value>): (r: Option<seq<string>>)
    ensures r.Some? ==> |r.value| == |items| && forall i :: 0 <= i < |items| ==> items[i] == Str(r.value[i])
  {
    if |items| == 0 then Some([])
    else if !items[0].Str? then None
    else
      var rest :- ReadStrList(items[1..]);
      Some([items[0].s] + rest)
  }

  /** Reading back a list of texts written as JSON gives the list. */
  lemma {:induction false} ReadStrListOfStrList(xs: seq<string>)
    ensures ReadStrList(StrList(xs).items) == Some(xs)
  {
    if |xs| > 0 {
      ReadStrListOfStrList(xs[1..]);
      assert StrList(xs).items[1..] == StrList(xs[1..]).items;
      assert [xs[0]] + xs[1..] == xs;
    }
  }

  /** A dict of counts as JSON. */
  function IntDict(d: Dict<int>): (v: Value)
    ensures v.Obj? && |v.fields| == |d| && forall i :: 0 <= i < |d| ==> v.fields[i] == (d[i].0, Int(d[i].1))
  {
    Obj(seq(|d|, i requires 0 <= i < |d| => (d[i].0, Int(d[i].1))))
  }

  /** A JSON dict of integers read back; None for anything else. */
  function ReadIntDict(fields: Dict<Value>): (r: Option<Dict<int>>)
    ensures r.Some? ==> |r.value| == |fields| &&
                        forall i :: 0 <= i < |fields| ==> fields[i] == (r.value[i].0, Int(r.value[i].1))
  {
    if |fields| == 0 then Some([])
    else if !fields[0].1.Int? then None
    else
      var rest :- ReadIntDict(fields[1..]);
      Some([(fields[0].0, fields[0].1.i)] + rest)
  }

  /** Reading back a dict of counts written as JSON gives the dict. */
  lemma {:induction false} ReadIntDictOfIntDict(d: Dict<int>)
    ensures ReadIntDict(IntDict(d).fields) == Some(d)
  {
    if |d| > 0 {
      ReadIntDictOfIntDict(d[1..]);
      assert IntDict(d).fields[1..] == IntDict(d[1..]).fields;
      assert [(d[0].0, d[0].1)] + d[1..] == d;
    }
  }

  /** Reading a JSON list of texts and writing it back gives the same JSON. */
  lemma StrListOfReadStrList(items: seq<Value>)
    requires ReadStrList(items).Some?
    ensures StrList(ReadStrList(items).value) == Arr(items)
  {
  }

  /** Reading a JSON dict of integers and writing it back gives the same JSON. */
  lemma IntDictOfReadIntDict(fields: Dict<Value>)
    requires ReadIntDict(fields).Some?
    ensures IntDict(ReadIntDict(fields).value) == Obj(fields)
  {
  }

  /** `data.get(key, [])` for a list of texts. */
  function StrListOr(data: Object, key: string): (r: Result<seq<string>>)
    ensures !HasKey(data, key) ==> r == Ok([])
    ensures r.Ok? && HasKey(data, key) ==> Get(data, key) == Some(StrList(r.value))
  {
    match Get<Value>(data, key)
    case None => Ok([])
    case Some(Arr(items)) =>
      (match ReadStrList(items)
       case Some(xs) => StrListOfReadStrList(items); Ok(xs)
       case None => Err("ill-typed field: " + key))
    case Some(_) => Err("ill-typed field: " + key)
  }

  /** A list of texts written as JSON is read back. */
  lemma StrListOrOf(data: Object, key: string, xs: seq<string>)
    requires Get(data, key) == Some(StrList(xs))
    ensures StrListOr(data, key) == Ok(xs)
  {
    ReadStrListOfStrList(xs);
  }

  /** `data.get(key, default)` for a dict of counts. */
  function IntDictOr(data: Object, key: string, default: Dict<int>): (r: Result<Dict<int>>)
    ensures !HasKey(data, key) ==> r == Ok(default)
    ensures r.Ok? && HasKey(data, key) ==> Get(data, key) == Some(IntDict(r.value))
  {
    match Get<Value>(data, key)
    case None => Ok(default)
    case Some(Obj(fields)) =>
      (match ReadIntDict(fields)
       case Some(d) => IntDictOfReadIntDict(fields); Ok(d)
       case None => Err("ill-typed field: " + key))
    case Some(_) => Err("ill-typed field: " + key)
  }

  /** A dict of counts written as JSON is read back. */
  lemma IntDictOrOf(data: Object, key: string, d: Dict<int>, default: Dict<int>)
    requires Get(data, key) == Some(IntDict(d))
    ensures IntDictOr(data, key, default) == Ok(d)
  {
    ReadIntDictOfIntDict(d);
  }
}

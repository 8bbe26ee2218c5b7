/** PHP values as the settings page sees them: what the option store holds,
    what a form submission carries, and the WordPress string filters the page
    applies without the model knowing their definitions. */
module PhpValues {

  datatype Option<T> = None | Some(value: T)

  /** A value held in the option store. PHP's array is split in two: a list of
      strings (what multicheck and multiselect fields store) and an array keyed
      by strings (what bracketed field ids `name[key]` build). */
  datatype Value =
    | Null
    | Str(s: string)
    | List(items: seq<string>)
    | Dict(entries: map<string, Value>)

  /** What the request body carries under one field name: a single string, or
      a list of strings (a field named `id[]` or `id[key]`). */
  datatype Posted = One(text: string) | Many(texts: seq<string>)

  /** The WordPress string filters, given as parameters: stripslashes, trim,
      sanitize_text_field, wp_kses_post and sanitize_title. */
  datatype Filters = Filters(
    stripSlashes: string -> string,
    trim: string -> string,
    sanitizeText: string -> string,
    ksesPost: string -> string,
    sanitizeTitle: string -> string)

  /** PHP's is_array(). */
  predicate IsArray(v: Value) {
    v.List? || v.Dict?
  }

  /** PHP's empty() on a string: true for "" and for "0". */
  predicate EmptyString(s: string) {
    s == "" || s == "0"
  }

  /** PHP's (string) cast; an array converts to the word "Array". */
  function StringOf(v: Value): string {
    match v
    case Null => ""
    case Str(s) => s
    case _ => "Array"
  }

  /** PHP's stripslashes() applied to a value of any type: null is read as the
      empty string, and an array argument yields null. */
  function StripSlashesOf(f: Filters, v: Value): Value {
    match v
    case Null => Str(f.stripSlashes(""))
    case Str(s) => Str(f.stripSlashes(s))
    case _ => Null
  }

  function MapStrings(g: string -> string, xs: seq<string>): (r: seq<string>)
    ensures |r| == |xs|
    ensures forall i :: 0 <= i < |xs| ==> r[i] == g(xs[i])
  {
    seq(|xs|, i requires 0 <= i < |xs| => g(xs[i]))
  }

  function Digit(d: nat): (c: char)
    requires d < 10
  {
    (48 + d) as char
  }

  /** The decimal spelling of an integer key, which is how PHP matches the
      string key "3" with the fourth element of a list. */
  function Decimal(n: nat): (r: string)
    ensures |r| == 1 <==> n < 10
    ensures |r| >= 1
  {
    if n < 10 then [Digit(n)] else Decimal(n / 10) + [Digit(n % 10)]
  }

  /** Distinct indices have distinct decimal keys. */
  lemma {:induction false} DecimalInjective(a: nat, b: nat)
    requires Decimal(a) == Decimal(b)
    ensures a == b
  {
    var da, db := Decimal(a), Decimal(b);
    if a < 10 || b < 10 {
      assert a < 10 && b < 10;
      assert da[0] == Digit(a) && db[0] == Digit(b);
    } else {
      assert da == Decimal(a / 10) + [Digit(a % 10)];
      assert db == Decimal(b / 10) + [Digit(b % 10)];
      assert Decimal(a / 10) == da[..|da| - 1];
      assert Decimal(b / 10) == db[..|db| - 1];
      DecimalInjective(a / 10, b / 10);
      assert Digit(a % 10) == da[|da| - 1];
      assert Digit(b % 10) == db[|db| - 1];
    }
  }

  /** The keys of a PHP list of length n. */
  function IndexKeys(n: nat): set<string> {
    set i | 0 <= i < n :: Decimal(i)
  }

  /** A list seen as a PHP array: element i under the key Decimal(i). */
  function ListEntries(xs: seq<string>): (m: map<string, Value>)
    ensures m.Keys == IndexKeys(|xs|)
  {
    if xs == [] then map[]
    else
      var n := |xs| - 1;
      assert IndexKeys(n + 1) == IndexKeys(n) + {Decimal(n)};
      ListEntries(xs[..n])[Decimal(n) := Str(xs[n])]
  }

  /** Every element of a list is found under its decimal index. */
  lemma {:induction false} ListEntriesAt(xs: seq<string>, i: nat)
    requires i < |xs|
    ensures Decimal(i) in ListEntries(xs) && ListEntries(xs)[Decimal(i)] == Str(xs[i])
  {
    var n := |xs| - 1;
    if i < n {
      ListEntriesAt(xs[..n], i);
      if Decimal(i) == Decimal(n) {
        DecimalInjective(i, n);
      }
    }
  }

  /** The entries of a PHP array; a value that is not an array has none. */
  function ArrayEntries(v: Value): map<string, Value> {
    match v
    case Dict(m) => m
    case List(xs) => ListEntries(xs)
    case _ => map[]
  }
}

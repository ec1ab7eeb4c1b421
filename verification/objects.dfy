/** The Python values a loaded joblib artifact or JSON document can hold, as
    far as the backend inspects them: strings, integers, `None`, lists,
    tuples, dictionaries (kept as an ordered list of entries, since Python
    dictionaries remember insertion order) and objects the backend cannot see
    into, known only by their `str()` text, which methods they have and, when
    they are iterable (a numpy array, a pandas `Index`, a set), the elements
    iterating them yields. */
module Objects {
  import opened Wrappers
  import opened Text
  import opened Collections

  datatype Obj =
    | Opaque(text: string, hasPredict: bool, elems: Option<seq<Obj>>)
    | NoneObj
    | Int(i: int)
    | Str(s: string)
    | List(items: seq<Obj>)
    | Tuple(items: seq<Obj>)
    | Dict(entries: seq<(Obj, Obj)>)

  /** `hasattr(obj, "predict")`: only an estimator-like object has it. */
  predicate HasPredict(o: Obj)
  {
    o.Opaque? && o.hasPredict
  }

  /** `d.get(k)`: the value stored under the first entry with key `k`. */
  function DictGet(entries: seq<(Obj, Obj)>, k: Obj): (r: Option<Obj>)
    ensures r.None? <==> forall i :: 0 <= i < |entries| ==> entries[i].0 != k
    ensures r.Some? ==> exists i :: 0 <= i < |entries| && entries[i] == (k, r.value)
  {
    if entries == [] then None
    else if entries[0].0 == k then Some(entries[0].1)
    else
      var r := DictGet(entries[1..], k);
      assert forall i :: 0 <= i < |entries| - 1 ==> entries[1..][i] == entries[i + 1];
      r
  }

  /** `d[k] = v`: an existing key keeps its place and gets the new value; a
      new key is added at the end. */
  function DictSet(entries: seq<(Obj, Obj)>, k: Obj, v: Obj): (r: seq<(Obj, Obj)>)
    ensures Firsts(r) == Firsts(entries) + (if DictGet(entries, k).None? then [k] else [])
  {
    if entries == [] then [(k, v)]
    else if entries[0].0 == k then [(k, v)] + entries[1..]
    else
      var t := DictSet(entries[1..], k, v);
      assert Firsts([entries[0]] + t) == [entries[0].0] + Firsts(t);
      assert Firsts(entries) == [entries[0].0] + Firsts(entries[1..]);
      [entries[0]] + t
  }

  /** After `d[k] = v`, `d[k]` is `v` and every other key reads as before. */
  lemma {:induction false} DictGetSet(entries: seq<(Obj, Obj)>, k: Obj, v: Obj, k2: Obj)
    ensures DictGet(DictSet(entries, k, v), k2) == if k2 == k then Some(v) else DictGet(entries, k2)
  {
    if entries != [] && entries[0].0 != k {
      DictGetSet(entries[1..], k, v, k2);
      var t := DictSet(entries[1..], k, v);
      assert ([entries[0]] + t)[1..] == t;
    } else if entries != [] {
      assert ([(k, v)] + entries[1..])[1..] == entries[1..];
    }
  }

  /** Storing the value a key already has changes nothing. */
  lemma {:induction false} DictSetSame(entries: seq<(Obj, Obj)>, k: Obj, v: Obj)
    requires DictGet(entries, k) == Some(v)
    ensures DictSet(entries, k, v) == entries
  {
    if entries[0].0 != k {
      DictSetSame(entries[1..], k, v);
    }
  }

  /** A character `repr` shows as it is: not a backslash, a quote or an ASCII
      control character. */
  predicate PlainChar(c: char)
  {
    c != '\\' && c != '\'' && c != '"' && 32 <= c as int && c as int != 127
  }

  function HexDigit(n: nat): char
    requires n < 16
  {
    "0123456789abcdef"[n]
  }

  /** How `repr` writes one character of a string quoted by `quote`: the
      backslash and the quote itself are escaped, tab, newline and carriage
      return by their letters, other ASCII control characters as `\xNN`. */
  function EscapeChar(c: char, quote: char): (r: string)
    ensures PlainChar(c) && c != quote ==> r == [c]
  {
    if c == '\\' then "\\\\"
    else if c == quote then ['\\', c]
    else if c == '\n' then "\\n"
    else if c == '\r' then "\\r"
    else if c == '\t' then "\\t"
    else if c as int < 32 || c as int == 127 then ['\\', 'x', HexDigit(c as int / 16), HexDigit(c as int % 16)]
    else [c]
  }

  function EscapeStr(s: string, quote: char): string
  {
    if s == [] then [] else EscapeChar(s[0], quote) + EscapeStr(s[1..], quote)
  }

  /** The quote `repr` chooses: double quotes when the string holds a single
      quote and no double quote, single quotes otherwise. */
  function QuoteChar(s: string): (q: char)
    ensures q == '"' <==> '\'' in s && '"' !in s
  {
    if '\'' in s && '"' !in s then '"' else '\''
  }

  /** `repr(s)` for a string. */
  function QuoteStr(s: string): (r: string)
    ensures |r| >= 2 && r[0] == r[|r| - 1] == QuoteChar(s)
  {
    [QuoteChar(s)] + EscapeStr(s, QuoteChar(s)) + [QuoteChar(s)]
  }

  /** Only the quoting characters and control characters are escaped. */
  lemma {:induction false} EscapePlain(s: string, quote: char)
    requires !PlainChar(quote)
    requires forall i :: 0 <= i < |s| ==> PlainChar(s[i])
    ensures EscapeStr(s, quote) == s
  {
    if s != [] {
      EscapePlain(s[1..], quote);
      assert s == [s[0]] + s[1..];
    }
  }

  /** A string of plain characters is shown between single quotes, as it is. */
  lemma QuotePlain(s: string)
    requires forall i :: 0 <= i < |s| ==> PlainChar(s[i])
    ensures QuoteStr(s) == "'" + s + "'"
  {
    EscapePlain(s, QuoteChar(s));
    assert forall i :: 0 <= i < |s| ==> s[i] != '\'';
  }

  /** A string holding a single quote and no double quote is shown between
      double quotes, its single quotes unescaped. */
  lemma {:induction false} EscapeOtherQuote(s: string)
    requires forall i :: 0 <= i < |s| ==> PlainChar(s[i]) || s[i] == '\''
    ensures EscapeStr(s, '"') == s
  {
    if s != [] {
      EscapeOtherQuote(s[1..]);
      assert s == [s[0]] + s[1..];
    }
  }

  lemma QuoteApostrophe(s: string)
    requires '\'' in s
    requires forall i :: 0 <= i < |s| ==> PlainChar(s[i]) || s[i] == '\''
    ensures QuoteStr(s) == "\"" + s + "\""
  {
    assert forall i :: 0 <= i < |s| ==> s[i] != '"';
    EscapeOtherQuote(s);
  }

  /** `str(o)`; containers show the `repr` of their elements. */
  function StrOf(o: Obj): string
    decreases o, 1
  {
    match o
    case Opaque(text, _, _) => text
    case NoneObj => "None"
    case Int(i) => IntToString(i)
    case Str(s) => s
    case List(items) => "[" + ReprJoin(o, items) + "]"
    case Tuple(items) =>
      if |items| == 1 then "(" + Repr(items[0]) + ",)" else "(" + ReprJoin(o, items) + ")"
    case Dict(entries) => "{" + EntriesJoin(o, entries) + "}"
  }

  /** `repr(o)`: as `str(o)`, with strings quoted. */
  function Repr(o: Obj): string
    decreases o, 2
  {
    if o.Str? then QuoteStr(o.s) else StrOf(o)
  }

  /** `", ".join(repr(x) for x in items)` for the items of `parent`. */
  function ReprJoin(parent: Obj, items: seq<Obj>): string
    requires forall x :: x in items ==> x < parent
    decreases parent, 0, |items|
  {
    if items == [] then []
    else
      assert items[0] in items;
      if |items| == 1 then Repr(items[0])
      else
        assert forall x :: x in items[1..] ==> x in items;
        Repr(items[0]) + ", " + ReprJoin(parent, items[1..])
  }

  /** `", ".join(f"{k!r}: {v!r}" for k, v in entries)` for the entries of `parent`. */
  function EntriesJoin(parent: Obj, entries: seq<(Obj, Obj)>): string
    requires forall e :: e in entries ==> e.0 < parent && e.1 < parent
    decreases parent, 0, |entries|
  {
    if entries == [] then []
    else
      var head := Repr(entries[0].0) + ": " + Repr(entries[0].1);
      if |entries| == 1 then head else head + ", " + EntriesJoin(parent, entries[1..])
  }

  /** The message Python gives for an object that is not iterable, without the
      type name, which an opaque object does not carry. */
  const NotIterable := "object is not iterable"

  /** `list(o)`: the elements of a list or tuple, the characters of a string,
      the keys of a dictionary, the elements of an iterable opaque object;
      anything else is not iterable. */
  function Iterate(o: Obj): (r: Result<seq<Obj>>)
    ensures r.Err? <==> !(o.List? || o.Tuple? || o.Str? || o.Dict? || (o.Opaque? && o.elems.Some?))
    ensures (o.List? || o.Tuple?) ==> r == Ok(o.items)
    ensures o.Opaque? && o.elems.Some? ==> r == Ok(o.elems.value)
  {
    match o
    case List(items) => Ok(items)
    case Tuple(items) => Ok(items)
    case Opaque(_, _, Some(xs)) => Ok(xs)
    case Str(s) => Ok(seq(|s|, i requires 0 <= i < |s| => Str([s[i]])))
    case Dict(entries) => Ok(Firsts(entries))
    case NoneObj => Err(TypeError("'NoneType' object is not iterable"))
    case Int(_) => Err(TypeError("'int' object is not iterable"))
    case Opaque(_, _, None) => Err(TypeError(NotIterable))
  }

  /** `[str(x) for x in xs]`. */
  function StrList(xs: seq<Obj>): (r: seq<Obj>)
    ensures |r| == |xs| && forall i :: 0 <= i < |xs| ==> r[i] == Str(StrOf(xs[i]))
  {
    seq(|xs|, i requires 0 <= i < |xs| => Str(StrOf(xs[i])))
  }

  /** Converting to strings twice is converting once: `str` of a string is
      that string. */
  lemma StrListIdempotent(xs: seq<Obj>)
    ensures StrList(StrList(xs)) == StrList(xs)
  {
  }
}

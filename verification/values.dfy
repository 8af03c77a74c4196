/** Values shared by every handler: optional values (JavaScript's `undefined`),
    JSON values as the relay sees them, JavaScript's `||` on an optional string,
    and the "skip the missing entries" step used when files are normalised. */
module Values {

  /** `None` stands for a JavaScript value that is `undefined` (or `null`
      where the source treats both alike). */
  datatype Option<+T> = None | Some(value: T) {

    /** The value, or `default` when there is none. */
    function GetOr(default: T): T {
      match this
      case Some(v) => v
      case None => default
    }
  }

  /** A JSON value. Numbers are integers here: every number the handlers
      themselves produce is an HTTP status code. Object key order is not kept. */
  datatype Json =
    | JNull
    | JBool(b: bool)
    | JNum(n: int)
    | JStr(s: string)
    | JArr(items: seq<Json>)
    | JObj(fields: map<string, Json>)

  /** The JSON object `{}`. */
  const EmptyObject: Json := JObj(map[])

  /** JavaScript's `v || fallback` where `v` is a string or `undefined`:
      both `undefined` and the empty string are falsy. */
  function StringOr(v: Option<string>, fallback: string): (r: string)
    ensures v.Some? && v.value != "" ==> r == v.value
    ensures v.None? || v.value == "" ==> r == fallback
  {
    if v.Some? && v.value != "" then v.value else fallback
  }

  /** The entries of `es` that are present, in order: a loop over a list
      that skips the falsy (`null` / `undefined`) entries. */
  function Present<T>(es: seq<Option<T>>): seq<T>
  {
    if |es| == 0 then []
    else if es[0].Some? then [es[0].value] + Present(es[1..])
    else Present(es[1..])
  }

  /** How many entries of `es` are present, counted from the back: an
      independent definition, used to state how many values `Present` keeps. */
  function CountPresent<T>(es: seq<Option<T>>): nat
  {
    if |es| == 0 then 0
    else CountPresent(es[..|es| - 1]) + (if es[|es| - 1].Some? then 1 else 0)
  }

  /** Skipping distributes over concatenation, so the relative order of the
      kept entries is the order of the input. */
  lemma {:induction false} PresentAppend<T>(a: seq<Option<T>>, b: seq<Option<T>>)
    ensures Present(a + b) == Present(a) + Present(b)
  {
    if |a| == 0 {
      assert a + b == b;
    } else {
      assert (a + b)[1..] == a[1..] + b;
      PresentAppend(a[1..], b);
    }
  }

  /** A list with no missing entry loses nothing. */
  lemma {:induction false} PresentAllSome<T>(es: seq<Option<T>>)
    requires forall i :: 0 <= i < |es| ==> es[i].Some?
    ensures |Present(es)| == |es|
    ensures forall i :: 0 <= i < |es| ==> Present(es)[i] == es[i].value
  {
    if |es| > 0 {
      PresentAllSome(es[1..]);
    }
  }

  /** Every kept value comes from a present entry of the input. */
  lemma {:induction false} PresentFromInput<T>(es: seq<Option<T>>)
    ensures forall x :: x in Present(es) ==> Some(x) in es
  {
    if |es| > 0 {
      PresentFromInput(es[1..]);
      forall x | x in Present(es)
        ensures Some(x) in es
      {
        if es[0].Some? && x == es[0].value {
          assert es[0] == Some(x);
        } else {
          assert x in Present(es[1..]);
          assert Some(x) in es[1..];
        }
      }
    }
  }

  /** The number of kept values is the number of present entries. */
  lemma {:induction false} PresentLength<T>(es: seq<Option<T>>)
    ensures |Present(es)| == CountPresent(es)
  {
    if |es| > 0 {
      var init := es[..|es| - 1];
      var last := es[|es| - 1];
      assert es == init + [last];
      PresentAppend(init, [last]);
      PresentLength(init);
      assert [last][1..] == [];
    }
  }
}

/** Values shared by every component of the site: optional and fallible
    results, what a JavaScript `throw` carries, the signed-in user as the
    authentication provider reports it, and the observable effects a handler
    produces (dialogs, navigation, calls to hosted services). */
module Common {

  datatype Option<+T> = None | Some(value: T)

  datatype Result<+T, +E> = Ok(value: T) | Err(error: E)

  /** What a `catch` clause receives: an `Error` instance, whose `message`
      the site shows, or any other thrown value. */
  datatype Thrown = ErrorInstance(message: string) | OtherValue

  /** The outcome of an awaited call that either returns or throws. */
  datatype Attempt<+T> = Returned(value: T) | Threw(thrown: Thrown)

  /** A signed-in user as the authentication provider reports it; the
      provider's `email` may be null. */
  datatype AuthUser = AuthUser(uid: string, email: Option<string>)

  /** One observable step of an event handler, in the order it happens. */
  datatype Effect<+C> = Alert(text: string) | Navigate(path: string) | Call(call: C)

  /** JavaScript truthiness of a string that may be absent: only a present,
      non-empty string is truthy. */
  predicate Truthy(s: Option<string>)
  {
    s.Some? && s.value != ""
  }

  /** JavaScript's `s || fallback` on a string that may be absent. */
  function Or(s: Option<string>, fallback: string): (r: string)
    ensures Truthy(s) ==> r == s.value
    ensures !Truthy(s) ==> r == fallback
    ensures fallback != "" ==> r != ""
  {
    if Truthy(s) then s.value else fallback
  }

  /** The text shown for a caught value: `error.message` when it is an
      `Error`, the fallback otherwise. */
  function MessageOf(t: Thrown, fallback: string): (r: string)
    ensures t.ErrorInstance? ==> r == t.message
    ensures t.OtherValue? ==> r == fallback
  {
    match t
    case ErrorInstance(m) => m
    case OtherValue => fallback
  }

  /** The calls to hosted services among a handler's effects, in order. */
  function Calls<C>(es: seq<Effect<C>>): (cs: seq<C>)
    ensures |cs| <= |es|
  {
    if es == [] then []
    else (if es[0].Call? then [es[0].call] else []) + Calls(es[1..])
  }

  /** The calls of two consecutive runs of effects are the calls of the
      first followed by the calls of the second. */
  lemma {:induction false} CallsAppend<C>(a: seq<Effect<C>>, b: seq<Effect<C>>)
    ensures Calls(a + b) == Calls(a) + Calls(b)
  {
    if a == [] {
      assert a + b == b;
    } else {
      assert (a + b)[0] == a[0];
      assert (a + b)[1..] == a[1..] + b;
      CallsAppend(a[1..], b);
    }
  }

  lemma CallsOfCall<C>(c: C)
    ensures Calls([Call(c)]) == [c]
  {
  }

  /** Effects that are only dialogs and navigation call no service. */
  lemma {:induction false} CallsNone<C>(es: seq<Effect<C>>)
    requires forall i :: 0 <= i < |es| ==> !es[i].Call?
    ensures Calls(es) == []
  {
    if es != [] {
      CallsNone(es[1..]);
    }
  }

  /** The first entry and the rest of a concatenation whose left part is
      non-empty. */
  lemma AppendHeadTail<T>(a: seq<T>, b: seq<T>)
    requires a != []
    ensures (a + b)[0] == a[0] && (a + b)[1..] == a[1..] + b
  {
  }

  lemma AppendAssoc<T>(a: seq<T>, b: seq<T>, c: seq<T>)
    ensures a + (b + c) == (a + b) + c
  {
  }
}

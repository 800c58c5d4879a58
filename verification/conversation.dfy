/** The pieces both front ends of the voice math tutor share: the two oracles they consult and the
    bounded conversation memory (`self.context`), which keeps the last three explanation turns. */
module Conversation {

  /** What the intent classifier answered for one utterance: nothing (the call raised and the
      helper returned `None`), or a detected intent with its display name and parameters. */
  datatype Verdict = NoResult | Intent(name: string, params: map<string, string>)

  /** What the text generator answered for one prompt: the generated text, or the exception it
      raised, as `str(e)` renders it. */
  datatype Reply = Generated(text: string) | Failed(error: string)

  /** One remembered turn: `{"question": text, "response": response}`. */
  datatype Exchange<R> = Exchange(question: string, response: R)

  /** "Keep only last 3 interactions". */
  const CAPACITY: nat := 3

  /** `context.append(e)` followed by `context.pop(0)` when the length exceeds the capacity. */
  function Remember<R>(w: seq<Exchange<R>>, e: Exchange<R>): (r: seq<Exchange<R>>)
    ensures |r| > 0 && r[|r| - 1] == e
    ensures |w| < CAPACITY ==> r == w + [e]
    ensures |w| >= CAPACITY ==> |r| == |w| && r == w[1..] + [e]
    ensures |w| <= CAPACITY ==> |r| <= CAPACITY
  {
    var grown := w + [e];
    if |grown| > CAPACITY then grown[1..] else grown
  }

  /** The last `n` elements of `s` (all of them when there are fewer). */
  function LastN<T>(s: seq<T>, n: nat): (r: seq<T>)
    ensures |r| == if |s| < n then |s| else n
  {
    if |s| <= n then s else s[|s| - n..]
  }

  /** Remembering a sequence of exchanges, one after the other. */
  function RememberAll<R>(w: seq<Exchange<R>>, es: seq<Exchange<R>>): seq<Exchange<R>>
    decreases |es|
  {
    if es == [] then w else RememberAll(Remember(w, es[0]), es[1..])
  }

  /** Starting from any window of at most three exchanges, the window after more turns is the last
      three of the old window followed by the new exchanges, in order: the oldest are evicted first
      and nothing is reordered. */
  lemma {:induction false} RememberAllKeepsLastThree<R>(w: seq<Exchange<R>>, es: seq<Exchange<R>>)
    requires |w| <= CAPACITY
    ensures RememberAll(w, es) == LastN(w + es, CAPACITY)
    decreases |es|
  {
    if es != [] {
      RememberAllKeepsLastThree(Remember(w, es[0]), es[1..]);
      RememberThenLastN(w, es[0], es[1..]);
      assert [es[0]] + es[1..] == es;
    }
  }

  lemma RememberThenLastN<R>(w: seq<Exchange<R>>, e: Exchange<R>, rest: seq<Exchange<R>>)
    requires |w| <= CAPACITY
    ensures LastN(Remember(w, e) + rest, CAPACITY) == LastN(w + ([e] + rest), CAPACITY)
  {
    RememberIsLastN(w, e);
    LastNOfLastN(w + [e], rest);
    assert w + [e] + rest == w + ([e] + rest);
  }

  lemma RememberIsLastN<R>(w: seq<Exchange<R>>, e: Exchange<R>)
    requires |w| <= CAPACITY
    ensures Remember(w, e) == LastN(w + [e], CAPACITY)
  {
  }

  /** Taking the last three before appending more does not change the last three after it. */
  lemma LastNOfLastN<T>(a: seq<T>, b: seq<T>)
    ensures LastN(LastN(a, CAPACITY) + b, CAPACITY) == LastN(a + b, CAPACITY)
  {
    var n := CAPACITY;
    if |a| > n {
      var a' := a[|a| - n..];
      assert (a' + b) == (a + b)[|a| - n..];
      if |a' + b| > n {
        assert (a' + b)[|a' + b| - n..] == (a + b)[|a + b| - n..];
      }
    }
  }

  /** The end-to-end form: starting empty, the window is exactly the last three exchanges. */
  lemma WindowIsLastThree<R>(es: seq<Exchange<R>>)
    ensures RememberAll([], es) == LastN(es, CAPACITY)
    ensures |RememberAll([], es)| <= CAPACITY
  {
    RememberAllKeepsLastThree([], es);
    assert [] + es == es;
  }
}

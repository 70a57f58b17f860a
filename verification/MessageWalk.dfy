// Walking a message of fields, whatever the fields are (internal/geodat/geodat.go).

module MessageWalk {
  import opened Wrappers

  /** Reading one thing always gets on. */
  ghost predicate Advances<B(!new), F>(consume: seq<B> -> Option<(F, nat)>) {
    forall data :: consume(data).Some? ==> 0 < consume(data).value.1 <= |data|
  }

  /** The things read up to the first malformed one, and whether there is none. */
  function WalkWith<B(!new), F>(consume: seq<B> -> Option<(F, nat)>, data: seq<B>): (r: (seq<F>, bool))
    requires Advances(consume)
    decreases |data|
  {
    if data == [] then ([], true)
    else match consume(data)
      case None => ([], false)
      case Some((f, n)) =>
        var (rest, ok) := WalkWith(consume, data[n..]);
        ([f] + rest, ok)
  }

  function SerializeWith<B(!new), F>(encode: F -> seq<B>, message: seq<F>): seq<B> {
    if message == [] then [] else encode(message[0]) + SerializeWith(encode, message[1..])
  }

  /** What was written is read back, whatever follows it. */
  ghost predicate Inverts<B(!new), F>(consume: seq<B> -> Option<(F, nat)>, encode: F -> seq<B>, f: F) {
    encode(f) != [] && forall rest :: consume(encode(f) + rest) == Some((f, |encode(f)|))
  }

  lemma WalkOne<B(!new), F>(consume: seq<B> -> Option<(F, nat)>, encode: F -> seq<B>, f: F, tail: seq<B>)
    requires Advances(consume) && Inverts(consume, encode, f)
    ensures WalkWith(consume, encode(f) + tail) == ([f] + WalkWith(consume, tail).0, WalkWith(consume, tail).1)
  {
    assert (encode(f) + tail)[|encode(f)|..] == tail;
  }

  lemma SerializeStep<B(!new), F>(encode: F -> seq<B>, message: seq<F>, rest: seq<B>)
    requires message != []
    ensures SerializeWith(encode, message) + rest == encode(message[0]) + (SerializeWith(encode, message[1..]) + rest)
  {
  }

  lemma Regroup<F>(message: seq<F>, after: seq<F>)
    requires message != []
    ensures [message[0]] + (message[1..] + after) == message + after
  {
  }

  /** Whatever follows a message is walked as if it stood alone. */
  lemma {:induction false} WalkAfter<B(!new), F>(
      consume: seq<B> -> Option<(F, nat)>, encode: F -> seq<B>, message: seq<F>, rest: seq<B>)
    requires Advances(consume) && forall f <- message :: Inverts(consume, encode, f)
    ensures WalkWith(consume, SerializeWith(encode, message) + rest)
      == (message + WalkWith(consume, rest).0, WalkWith(consume, rest).1)
  {
    if message == [] {
      assert SerializeWith(encode, message) + rest == rest;
      assert message + WalkWith(consume, rest).0 == WalkWith(consume, rest).0;
    } else {
      assert forall f <- message[1..] :: f in message;
      WalkAfter(consume, encode, message[1..], rest);
      SerializeStep(encode, message, rest);
      assert message[0] in message;
      WalkOne(consume, encode, message[0], SerializeWith(encode, message[1..]) + rest);
      Regroup(message, WalkWith(consume, rest).0);
    }
  }

  lemma WalkBack<B(!new), F>(consume: seq<B> -> Option<(F, nat)>, encode: F -> seq<B>, message: seq<F>)
    requires Advances(consume) && forall f <- message :: Inverts(consume, encode, f)
    ensures WalkWith(consume, SerializeWith(encode, message)) == (message, true)
  {
    WalkAfter(consume, encode, message, []);
    assert SerializeWith(encode, message) + [] == SerializeWith(encode, message);
    assert message + [] == message;
  }

  lemma WalkCut<B(!new), F>(consume: seq<B> -> Option<(F, nat)>, encode: F -> seq<B>, message: seq<F>, part: seq<B>)
    requires Advances(consume) && forall f <- message :: Inverts(consume, encode, f)
    requires part != [] && consume(part).None?
    ensures WalkWith(consume, SerializeWith(encode, message) + part) == (message, false)
  {
    var stopped := WalkWith(consume, part);
    assert stopped == ([], false);
    WalkAfter(consume, encode, message, part);
    assert message + stopped.0 == message;
  }
}

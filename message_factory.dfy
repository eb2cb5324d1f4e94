/** The outbound record buffer: records are appended one at a time and handed out, all
    together and serialised, by `get`, which empties the buffer. */
module MessageFactory {
  import opened Encoders

  /** `MessageFactory`, over records of type `R` (the keyword arguments of `add`). */
  class MessageFactory<R> {
    var messages: seq<R>

    /** `__init__`: an empty buffer. */
    constructor ()
      ensures messages == []
    {
      messages := [];
    }

    /** `add`: appends exactly one record at the end and returns the same factory, so that
        calls can be chained. */
    method Add(record: R) returns (self: MessageFactory<R>)
      modifies this
      ensures self == this
      ensures messages == old(messages) + [record]
    {
      messages := messages + [record];
      self := this;
    }

    /** `get`: the serialisation of all pending records in the order they were added; the
        buffer is empty afterwards. */
    method Get(dumps: seq<R> -> seq<byte>) returns (data: seq<byte>)
      modifies this
      ensures data == dumps(old(messages))
      ensures messages == []
    {
      data := dumps(messages);
      messages := [];
    }
  }

  /** Records added one after another come out of one `get` in that order, and a second `get`
      with no add in between serialises the empty list. */
  method AddAddGetGet<R>(factory: MessageFactory<R>, a: R, b: R, dumps: seq<R> -> seq<byte>)
    returns (first: seq<byte>, second: seq<byte>)
    requires factory.messages == []
    modifies factory
    ensures first == dumps([a, b]) && second == dumps([])
    ensures factory.messages == []
  {
    var same := factory.Add(a);
    same := same.Add(b);
    assert factory.messages == [a, b];
    first := factory.Get(dumps);
    second := factory.Get(dumps);
  }
}

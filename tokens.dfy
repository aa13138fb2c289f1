/** `MessageToken`: an optional filter tag on a registration or a send.
    It wraps one string; the empty string is the wildcard. */
module Tokens {

  datatype MessageToken = MessageToken(id: string) {

    /** `isEmpty`: the token is the wildcard exactly when it is the
        default-constructed `MessageToken()`. */
    predicate IsEmpty(): (b: bool)
      ensures b <==> this == MessageToken("")
    {
      |id| == 0
    }

    /** `operator==`: comparing the strings is comparing the tokens. */
    predicate Equals(other: MessageToken): (b: bool)
      ensures b <==> this == other
    {
      id == other.id
    }

    /** `operator!=`: the negation of `operator==`. */
    predicate Differs(other: MessageToken): (b: bool)
      ensures b <==> this != other
    {
      !Equals(other)
    }
  }

  /** The token of the default constructor argument `QString()`. */
  function NoToken(): (t: MessageToken)
    ensures t.IsEmpty()
    ensures forall u: MessageToken :: u.IsEmpty() ==> u == t
  {
    MessageToken("")
  }

  /** The send-time token rule: a wildcard on either side matches, otherwise
      the two tokens must be equal. */
  predicate TokenMatch(subscribed: MessageToken, sent: MessageToken): (b: bool)
    ensures b <==> subscribed == NoToken() || sent == NoToken() || subscribed == sent
  {
    subscribed.IsEmpty() || sent.IsEmpty() || subscribed.Equals(sent)
  }

  /** The five cases of the matching table, and its symmetry. */
  lemma TokenMatchTable(a: MessageToken, b: MessageToken)
    ensures TokenMatch(NoToken(), NoToken())
    ensures TokenMatch(NoToken(), b) && TokenMatch(a, NoToken())
    ensures TokenMatch(a, a)
    ensures !a.IsEmpty() && !b.IsEmpty() ==> (TokenMatch(a, b) <==> a == b)
    ensures TokenMatch(a, b) <==> TokenMatch(b, a)
  {
  }
}

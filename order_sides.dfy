/**
 * The two sides of the book and the one-character token each side is known
 * by (the `OrderSides` enum: BID('B'), OFFER('O')).
 */
module OrderSides {

  datatype Side = Bid | Offer

  /** The enum's constants in declaration order: exactly two, both distinct. */
  function Values(): (r: seq<Side>)
    ensures |r| == 2 && r[0] != r[1]
    ensures r[0] == Bid
  {
    [Bid, Offer]
  }

  /** Every side is one of the listed constants. */
  lemma ValuesComplete(s: Side)
    ensures s in Values()
  {
  }

  /** `getOrderSide`: the character the constant was constructed with. */
  function GetOrderSide(s: Side): (c: char)
    ensures s == Bid ==> c == 'B'
    ensures s == Offer ==> c == 'O'
  {
    match s
    case Bid => 'B'
    case Offer => 'O'
  }

  /** Distinct constants carry distinct tokens, so a token names one side. */
  lemma GetOrderSideInjective(s: Side, t: Side)
    ensures GetOrderSide(s) == GetOrderSide(t) <==> s == t
  {
  }

  /**
   * The check the book applies to a raw side character: it must equal the
   * BID token or the OFFER token.
   */
  function IsSide(c: char): (b: bool)
    ensures b <==> exists s: Side :: GetOrderSide(s) == c
    ensures b <==> c == 'B' || c == 'O'
  {
    c == GetOrderSide(Bid) || c == GetOrderSide(Offer)
  }

  /**
   * The lookup the book picks for a character: the bid side when the
   * character is the BID token, the offer side for anything else.
   */
  function SideOf(c: char): (s: Side)
    ensures IsSide(c) ==> GetOrderSide(s) == c
    ensures !IsSide(c) ==> s == Offer
  {
    if c == GetOrderSide(Bid) then Bid else Offer
  }

  /** Reading a side's token back gives the side. */
  lemma SideOfToken(s: Side)
    ensures SideOf(GetOrderSide(s)) == s
  {
  }
}

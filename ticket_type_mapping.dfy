/**
 * The price table: the three ticket types and their prices. The keys of the
 * object literal, in declaration order, are also what decides which type
 * names a request may use and in what order the error message lists them.
 */
module TicketTypeMapping {

  import opened Wrappers

  datatype TicketType = ADULT | CHILD | INFANT

  /** The entries of the table, in declaration order. */
  const Types: seq<TicketType> := [ADULT, CHILD, INFANT]

  /** The table's keys, in declaration order. */
  const Keys: seq<string> := ["ADULT", "CHILD", "INFANT"]

  /** The key under which a type is stored. */
  function Name(t: TicketType): string
  {
    match t
    case ADULT => "ADULT"
    case CHILD => "CHILD"
    case INFANT => "INFANT"
  }

  /** The price of one ticket of type t: only infants are free, and no ticket costs more than an adult's. */
  function Price(t: TicketType): (p: nat)
    ensures p == 0 <==> t == INFANT
    ensures p <= 25
    ensures t != ADULT ==> p < 25
  {
    match t
    case ADULT => 25
    case CHILD => 15
    case INFANT => 0
  }

  /** The type stored under key s, if s is a key of the table. */
  function Lookup(s: string): (r: Option<TicketType>)
    ensures r.Some? <==> s in Keys
    ensures r.Some? ==> Name(r.value) == s
  {
    if s == "ADULT" then Some(ADULT)
    else if s == "CHILD" then Some(CHILD)
    else if s == "INFANT" then Some(INFANT)
    else None
  }

  lemma PriceTable()
    ensures Price(ADULT) == 25 && Price(CHILD) == 15 && Price(INFANT) == 0
  {
  }

  /** Exactly three keys, ADULT, CHILD, INFANT in that order, one per type. */
  lemma KeysFollowTypes()
    ensures |Keys| == |Types| == 3
    ensures forall i :: 0 <= i < |Types| ==> Keys[i] == Name(Types[i])
    ensures forall t: TicketType :: t in Types && Name(t) in Keys
    ensures forall i, j :: 0 <= i < j < |Keys| ==> Keys[i] != Keys[j]
  {
    forall t: TicketType ensures t in Types && Name(t) in Keys {
      match t
      case ADULT => assert Types[0] == t;
      case CHILD => assert Types[1] == t;
      case INFANT => assert Types[2] == t;
    }
  }

  /** Looking a type's own key up gives the type back. */
  lemma LookupName(t: TicketType)
    ensures Lookup(Name(t)) == Some(t)
  {
  }
}

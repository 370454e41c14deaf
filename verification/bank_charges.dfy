/** The fixed service charge each kind of bank levies on a disbursement. */
module BankCharges {
  import opened Models

  /** The charge table, `BankType -> charge`. */
  const Charges: map<BankType, real> := map[Public := 500.0, Private := 550.0]

  /** Looks up the charge for `b`; the lookup never fails because the table
      covers every bank type. */
  function ChargeFor(b: BankType): (c: real)
    ensures b in Charges && c == Charges[b]
    ensures c > 0.0
    ensures c == 500.0 || c == 550.0
  {
    ChargesTotal(b);
    Charges[b]
  }

  /** The table is total over the bank types. */
  lemma ChargesTotal(b: BankType)
    ensures b in Charges
  {
  }

  /** The two table entries. */
  lemma ChargeValues()
    ensures ChargeFor(Public) == 500.0
    ensures ChargeFor(Private) == 550.0
  {
  }

  /** Different bank types carry different charges, so a charge that is right
      for one is wrong for the other. */
  lemma ChargesDistinct(b: BankType, b': BankType)
    ensures ChargeFor(b) == ChargeFor(b') <==> b == b'
  {
  }
}

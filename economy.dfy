/**
 * The economy: moving credits between the balances of two characters.
 * A missing source or destination (None) means the credits are created or
 * destroyed by the transfer.
 */
module Economy {
  import opened Wrappers
  import opened Exceptions
  import opened Characters

  /** The characters among `src` and `dst` that are present. */
  function Present(src: Character?, dst: Character?): set<Character>
  {
    (if src == null then {} else {src}) + (if dst == null then {} else {dst})
  }

  /**
   * `transfer_funds(src, dst, credits)`. Both balances are read before
   * either is written, and the funds check (on a present source only)
   * precedes every write. When source and destination are the same
   * character, the destination's write, based on the balance read before
   * the source's write, is the one that stays: the balance grows by
   * `credits`.
   */
  method TransferFunds(src: Character?, dst: Character?, credits: int) returns (r: Outcome<Exception>)
    modifies Present(src, dst)`credits
    ensures r.Fail? <==> src != null && old(src.credits) < credits
    ensures r.Fail? ==> r.error == InsufficientFunds("Insufficient funds.")
    ensures r.Fail? ==> (src != null ==> src.credits == old(src.credits)) && (dst != null ==> dst.credits == old(dst.credits))
    ensures r.Pass? && src != null && src != dst ==> src.credits == old(src.credits) - credits
    ensures r.Pass? && dst != null ==> dst.credits == old(dst.credits) + credits
    ensures r.Pass? && src != null && dst != null && src != dst ==>
      src.credits + dst.credits == old(src.credits) + old(dst.credits)
    ensures r.Pass? && src != null && src != dst && credits >= 0 ==> src.credits >= 0
  {
    var srcVal := if src != null then src.credits else 0;
    var dstVal := if dst != null then dst.credits else 0;
    if src != null && srcVal < credits {
      return Fail(InsufficientFunds("Insufficient funds."));
    }
    if src != null {
      src.credits := srcVal - credits;
    }
    if dst != null {
      dst.credits := dstVal + credits;
    }
    r := Pass;
  }
}

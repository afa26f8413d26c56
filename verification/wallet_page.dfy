/** The wallet page: the fixed balance, the add-funds and withdraw dialogs
    with their enable rules, and the sign shown on each transaction. */
module WalletPage {
  import opened MockData

  /** The balance is a constant; no handler changes it. */
  const Balance: real := 150.0

  /** What `parseFloat` gives for the typed amount: a number, or NaN. The
      parse itself is a parameter of the guards. */
  datatype Parsed = Num(value: real) | NaN

  /** JavaScript comparisons, which are all false for NaN. */
  predicate AtMost(p: Parsed, x: real)
  {
    p.Num? && p.value <= x
  }

  predicate Above(p: Parsed, x: real)
  {
    p.Num? && p.value > x
  }

  /** `!amount || parseFloat(amount) <= 0` disables "Add". */
  predicate AddEnabled(amount: string, p: Parsed)
  {
    !(amount == "" || AtMost(p, 0.0))
  }

  /** ... and `|| parseFloat(amount) > balance` disables "Withdraw". */
  predicate WithdrawEnabled(amount: string, p: Parsed)
  {
    !(amount == "" || AtMost(p, 0.0) || Above(p, Balance))
  }

  /** Add is enabled for a typed positive number or for anything that does
      not parse; Withdraw in addition needs the number not to exceed the
      balance, so the whole balance can be withdrawn. */
  lemma GuardsMeaning(amount: string, p: Parsed)
    ensures AddEnabled(amount, p) <==> amount != "" && (p.NaN? || p.value > 0.0)
    ensures WithdrawEnabled(amount, p) <==> amount != "" && (p.NaN? || 0.0 < p.value <= Balance)
    ensures WithdrawEnabled(amount, p) ==> AddEnabled(amount, p)
    ensures amount != "" && p == Num(Balance) ==> WithdrawEnabled(amount, p)
    ensures amount != "" && p.NaN? ==> AddEnabled(amount, p) && WithdrawEnabled(amount, p)
  {
  }

  /** Which dialog is open, and the amount field they share. */
  datatype Wallet = Wallet(addOpen: bool, withdrawOpen: bool, amount: string)

  const Init: Wallet := Wallet(false, false, "")

  /** `handleAddFunds` / `handleWithdraw`: close the dialog, clear the
      amount. Nothing else moves; in particular not the balance. */
  function AddFunds(w: Wallet): Wallet
  {
    w.(addOpen := false, amount := "")
  }

  function Withdraw(w: Wallet): Wallet
  {
    w.(withdrawOpen := false, amount := "")
  }

  /** After either handler both buttons are disabled until a new amount is
      typed, and the other dialog is untouched. */
  lemma HandlersReset(w: Wallet, p: Parsed)
    ensures !AddFunds(w).addOpen && AddFunds(w).withdrawOpen == w.withdrawOpen
    ensures !Withdraw(w).withdrawOpen && Withdraw(w).addOpen == w.addOpen
    ensures !AddEnabled(AddFunds(w).amount, p) && !WithdrawEnabled(AddFunds(w).amount, p)
    ensures !AddEnabled(Withdraw(w).amount, p) && !WithdrawEnabled(Withdraw(w).amount, p)
  {
  }

  /** The quick-amount buttons of the add dialog. */
  const QuickAmounts: seq<int> := [25, 50, 100, 200]

  /** The text `value.toString()` puts in the field. */
  function QuickText(v: int): string
  {
    if v == 25 then "25" else if v == 50 then "50" else if v == 100 then "100" else "200"
  }

  function PressQuick(w: Wallet, v: int): Wallet
  {
    w.(amount := QuickText(v))
  }

  /** Every quick amount enables "Add"; 200 is the one that, typed into the
      withdraw dialog, would exceed the balance. */
  lemma QuickAmountsGuarded(w: Wallet, i: int)
    requires 0 <= i < |QuickAmounts|
    ensures AddEnabled(PressQuick(w, QuickAmounts[i]).amount, Num(QuickAmounts[i] as real))
    ensures WithdrawEnabled(PressQuick(w, QuickAmounts[i]).amount, Num(QuickAmounts[i] as real)) <==> QuickAmounts[i] != 200
  {
  }

  /** The sign before an amount in the transaction list. */
  function Sign(t: Transaction): char
  {
    if t.kind == Credit then '+' else '-'
  }

  /** Credits are marked '+', debits '-', and the seed list has both. */
  lemma SignsSplitByKind(t: Transaction)
    ensures Sign(t) == '+' <==> t.kind.Credit?
    ensures Sign(t) == '-' <==> t.kind.Debit?
    ensures Sign(Transactions[0]) == '-' && Sign(Transactions[1]) == '+'
  {
  }
}

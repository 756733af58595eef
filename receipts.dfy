/** Receipts for paid payments (`generate_and_save_receipt` in
    backend/payments/services.py): the guards, the mapping from a payment to
    the receipt's fields, and the payment-to-receipt table it inserts into.

    The PDF rendering is not modelled; where it or a database write can
    raise, the point of failure is an input. */
module Receipts {
  import opened Text
  import opened PaymentModels
  import Accounts

  /** The fields of `payment.user` the receipt reads. */
  datatype Customer = Customer(firstName: string, lastName: string, email: string, phoneNumber: Option<string>)

  /** The fields of a payment the receipt reads; `amount` is in cents. The
      integration is a foreign key that cannot be null, so the source's
      "Unknown" fallback for a missing one never applies. */
  datatype PaymentRecord = PaymentRecord(
    id: nat,
    reference: string,
    amount: int,
    currency: string,
    status: Status,
    buyerPhone: Option<string>,
    user: Option<Customer>,
    integration: Integration)

  datatype Receipt = Receipt(
    payment: nat,
    customerName: string,
    customerEmail: string,
    customerPhone: string,
    amountPaid: int,
    currency: string,
    paymentMethodDetails: string,
    itemsDescription: string)

  /** Where creating a new receipt raises, if anywhere: before the row is
      written, or after it (in the PDF step). */
  datatype Failure = NoFailure | BeforeSave | AfterSave

  function Digit(d: nat): char
    requires d < 10
  {
    ('0' as int + d) as char
  }

  /** The number a string of decimal digits denotes. */
  function DigitsValue(s: string): nat
    requires forall i :: 0 <= i < |s| ==> IsDigit(s[i])
  {
    if s == [] then 0
    else
      assert IsDigit(s[|s| - 1]);
      10 * DigitsValue(s[..|s| - 1]) + (s[|s| - 1] as int - '0' as int)
  }

  /** Decimal digits of `n`, as `str()` prints it: at least one digit, no
      leading zero, and they denote `n`. */
  function NatText(n: nat): (s: string)
    ensures |s| >= 1
    ensures forall i :: 0 <= i < |s| ==> IsDigit(s[i])
    ensures |s| > 1 ==> s[0] != '0'
    ensures DigitsValue(s) == n
  {
    if n < 10 then [Digit(n)]
    else
      var head := NatText(n / 10);
      assert (head + [Digit(n % 10)])[..|head|] == head;
      head + [Digit(n % 10)]
  }

  /** A two-place decimal amount as Python prints it, e.g. "100.00". */
  function AmountText(cents: int): (r: string)
    ensures |r| >= 4 && r[|r| - 3] == '.'
  {
    var magnitude := if cents < 0 then -cents else cents;
    (if cents < 0 then "-" else "") + NatText(magnitude / 100) + "." +
      [Digit(magnitude % 100 / 10), Digit(magnitude % 10)]
  }

  /** The text of an amount in cents reads back as that amount: a minus
      sign exactly for a negative amount, then the whole units without a
      leading zero, a point, and exactly two digits of cents. */
  lemma AmountTextDenotes(cents: int)
    ensures var r := AmountText(cents);
      var sign := if cents < 0 then 1 else 0;
      var magnitude := if cents < 0 then -cents else cents;
      && |r| >= sign + 4
      && (r[0] == '-' <==> cents < 0)
      && (forall i :: sign <= i < |r| - 3 ==> IsDigit(r[i]))
      && (forall i :: |r| - 2 <= i < |r| ==> IsDigit(r[i]))
      && DigitsValue(r[sign..|r| - 3]) == magnitude / 100
      && (|r| - 3 - sign > 1 ==> r[sign] != '0')
      && DigitsValue(r[|r| - 2..]) == magnitude % 100
  {
    var r := AmountText(cents);
    var sign := if cents < 0 then 1 else 0;
    var magnitude := if cents < 0 then -cents else cents;
    var whole := NatText(magnitude / 100);
    var tail := [Digit(magnitude % 100 / 10), Digit(magnitude % 10)];
    var pre: string := if cents < 0 then "-" else "";
    assert r == pre + whole + "." + tail;
    assert r[sign..|r| - 3] == whole;
    assert r[|r| - 2..] == tail;
    assert tail[..1] == [tail[0]];
    assert DigitsValue(tail) == 10 * DigitsValue([tail[0]]) + magnitude % 10;
    assert DigitsValue([tail[0]]) == magnitude % 100 / 10 by {
      assert [tail[0]][..0] == [];
    }
  }

  /** Python's `str()` of a value that may be `None`. */
  function PyStr(o: Option<string>): string
  {
    if o.Some? then o.value else "None"
  }

  /** `buyer_phone or (user.phone_number if user else "N/A")`, then `str()`. */
  function CustomerPhone(p: PaymentRecord): (r: string)
    ensures Present(p.buyerPhone) ==> r == p.buyerPhone.value
    ensures !Present(p.buyerPhone) && p.user.None? ==> r == "N/A"
    ensures !Present(p.buyerPhone) && p.user.Some? && p.user.value.phoneNumber.Some? ==>
      r == p.user.value.phoneNumber.value
    ensures !Present(p.buyerPhone) && p.user.Some? && p.user.value.phoneNumber.None? ==> r == "None"
  {
    if Present(p.buyerPhone) then p.buyerPhone.value
    else if p.user.Some? then PyStr(p.user.value.phoneNumber)
    else "N/A"
  }

  const ItemsPrefix := "Payment for services/goods related to reference "

  /** The receipt's item line: it names the payment's reference and ends
      with the amount as `str()` prints it, followed by a full stop. */
  function ItemsDescription(p: PaymentRecord): (r: string)
    ensures |r| >= |ItemsPrefix| + |p.reference| + |AmountText(p.amount)| + 1
    ensures r[..|ItemsPrefix|] == ItemsPrefix
    ensures r[|ItemsPrefix|..|ItemsPrefix| + |p.reference|] == p.reference
    ensures r[|r| - |AmountText(p.amount)| - 1..] == AmountText(p.amount) + "."
  {
    ItemsPrefix + p.reference + ". Amount: " + p.currency + " " + AmountText(p.amount) + "."
  }

  /** The receipt built for a payment, with the customer's name taken from
      the user's `full_name`. */
  function NewReceipt(p: PaymentRecord): (r: Receipt)
    ensures r.payment == p.id
    ensures r.amountPaid == p.amount && r.currency == p.currency
    ensures p.user.None? ==> r.customerName == "N/A" && r.customerEmail == "N/A"
    ensures p.user.Some? ==>
      r.customerName == Accounts.FullNameOf(p.user.value.firstName, p.user.value.lastName) &&
      r.customerEmail == p.user.value.email
    ensures r.customerPhone == CustomerPhone(p)
    ensures r.paymentMethodDetails == p.integration.name
    ensures r.itemsDescription == ItemsDescription(p)
  {
    var name := if p.user.Some? then Accounts.FullNameOf(p.user.value.firstName, p.user.value.lastName) else "N/A";
    var email := if p.user.Some? then p.user.value.email else "N/A";
    Receipt(p.id, name, email, CustomerPhone(p), p.amount, p.currency, p.integration.name, ItemsDescription(p))
  }

  const NoGetFullName := "AttributeError: 'User' object has no attribute 'get_full_name'"

  /** The mapping as written: the customer's name comes from
      `user.get_full_name()`, which the user model (built on
      `AbstractBaseUser`) does not define, so any payment with a user raises. */
  function NewReceiptAsWritten(p: PaymentRecord): (r: Result<Receipt, string>)
    ensures r.Err? <==> p.user.Some?
    ensures r.Ok? ==> r.value == NewReceipt(p)
  {
    if p.user.Some? then Err(NoGetFullName) else Ok(NewReceipt(p))
  }

  /** The whole of `generate_and_save_receipt` on the table of receipts by
      payment: the value returned and the table afterwards. */
  function Generate(table: map<nat, Receipt>, p: PaymentRecord, failure: Failure): (r: (Option<Receipt>, map<nat, Receipt>))
    ensures r.0.Some? ==> p.status == Paid && p.id in r.1 && r.1[p.id] == r.0.value
    ensures r.1.Keys <= table.Keys + {p.id}
  {
    if p.status != Paid then (None, table)
    else if p.id in table then (Some(table[p.id]), table)
    else match failure
      case NoFailure => (Some(NewReceipt(p)), table[p.id := NewReceipt(p)])
      case BeforeSave => (None, table)
      case AfterSave => (None, table[p.id := NewReceipt(p)])
  }

  /** The same, with the mapping as written. */
  function GenerateAsWritten(table: map<nat, Receipt>, p: PaymentRecord, failure: Failure): (r: (Option<Receipt>, map<nat, Receipt>))
    ensures r.0.Some? ==> p.status == Paid && p.id in r.1 && r.1[p.id] == r.0.value
    ensures r.1.Keys <= table.Keys + {p.id}
  {
    if p.status != Paid then (None, table)
    else if p.id in table then (Some(table[p.id]), table)
    else match NewReceiptAsWritten(p)
      case Err(_) => (None, table)
      case Ok(receipt) =>
        match failure
        case NoFailure => (Some(receipt), table[p.id := receipt])
        case BeforeSave => (None, table)
        case AfterSave => (None, table[p.id := receipt])
  }

  /** As written, a paid payment that belongs to a user never gets a receipt:
      the call returns `None` and the table is unchanged. */
  lemma UserPaymentsGetNoReceiptAsWritten(table: map<nat, Receipt>, p: PaymentRecord, failure: Failure)
    requires p.status == Paid && p.id !in table && p.user.Some?
    ensures GenerateAsWritten(table, p, failure) == (None, table)
  {
  }

  /** With `full_name`, the same payment gets its receipt, named after the
      user. */
  lemma UserPaymentsGetReceipt(table: map<nat, Receipt>, p: PaymentRecord)
    requires p.status == Paid && p.id !in table && p.user.Some?
    ensures var (r, after) := Generate(table, p, NoFailure);
      && r.Some? && p.id in after && after[p.id] == r.value
      && r.value.customerName == Accounts.FullNameOf(p.user.value.firstName, p.user.value.lastName)
  {
  }

  /** The two versions differ only on payments that have a user. */
  lemma AsWrittenAgreesWithoutUser(table: map<nat, Receipt>, p: PaymentRecord, failure: Failure)
    requires p.user.None?
    ensures GenerateAsWritten(table, p, failure) == Generate(table, p, failure)
  {
  }

  /** A payment that is not Paid yields nothing and creates nothing. */
  lemma NotPaidNoReceipt(table: map<nat, Receipt>, p: PaymentRecord, failure: Failure)
    requires p.status != Paid
    ensures Generate(table, p, failure) == (None, table)
  {
  }

  /** At most one receipt per payment: the table only ever gains the entry of
      this payment, only when it is Paid, and existing receipts never change. */
  lemma AtMostOneReceiptPerPayment(table: map<nat, Receipt>, p: PaymentRecord, failure: Failure)
    ensures var after := Generate(table, p, failure).1;
      && table.Keys <= after.Keys <= table.Keys + {p.id}
      && (after.Keys != table.Keys ==> p.status == Paid)
      && (forall id :: id in table ==> after[id] == table[id])
      && (forall id :: id in after ==> after[id].payment == id || id in table)
  {
  }

  /** Generation is idempotent: once a call has left a receipt in the table,
      a second call returns that receipt and changes nothing. */
  lemma GenerateIdempotent(table: map<nat, Receipt>, p: PaymentRecord, failure: Failure, again: Failure)
    requires p.status == Paid
    ensures var after := Generate(table, p, failure).1;
      p.id in after ==>
        Generate(after, p, again) == (Some(after[p.id]), after) &&
        (Generate(table, p, failure).0.Some? ==> Generate(table, p, failure).0 == Some(after[p.id]))
  {
  }

  /** Any failure while creating a new receipt gives `None`; a failure in
      the PDF step still leaves the receipt in the table. */
  lemma FailureGivesNone(table: map<nat, Receipt>, p: PaymentRecord, failure: Failure)
    requires p.status == Paid && p.id !in table && failure != NoFailure
    ensures Generate(table, p, failure).0.None?
    ensures (p.id in Generate(table, p, failure).1) <==> failure == AfterSave
  {
  }

  /** The payment-to-receipt table (`Receipt.payment` is one-to-one). */
  class ReceiptLedger {
    var receipts: map<nat, Receipt>

    /** Every receipt is stored under the payment it was made for. */
    predicate Valid()
      reads this
    {
      forall id :: id in receipts ==> receipts[id].payment == id
    }

    constructor ()
      ensures receipts == map[] && Valid()
    {
      receipts := map[];
    }

    /** `generate_and_save_receipt` as written: the customer's name is read
        through `get_full_name()`, so a payment with a user raises before
        anything is stored. */
    method GenerateAndSaveReceipt(p: PaymentRecord, failure: Failure) returns (r: Option<Receipt>)
      requires Valid()
      modifies this
      ensures (r, receipts) == GenerateAsWritten(old(receipts), p, failure)
      ensures Valid()
      ensures r.Some? ==> r.value.payment == p.id && p.id in receipts && receipts[p.id] == r.value
    {
      if p.status != Paid {
        return None;
      }
      if p.id in receipts {
        return Some(receipts[p.id]);
      }
      var built := NewReceiptAsWritten(p);
      if built.Err? {
        return None;
      }
      var receipt := built.value;
      if failure == BeforeSave {
        return None;
      }
      receipts := receipts[p.id := receipt];
      if failure == AfterSave {
        return None;
      }
      r := Some(receipt);
    }
  }
}

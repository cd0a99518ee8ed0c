/** The deterministic helpers of the data-seeding command: order numbers, invoice numbers
    derived from them, the guard of random_date and the clamping of delivery dates.
    Dates and datetimes are whole seconds; a date is a datetime at a whole day. */
module Populate {
  import opened Wrappers
  import opened DecimalText
  import ProductionModels

  /** Python's format spec "06d": at least six characters, zero padded after the sign. */
  function Format06d(n: int): (s: string)
    ensures n >= 0 ==> AllDigits(s) && DigitsValue(s) == n
    ensures n < 0 ==> |s| >= 1 && s[0] == '-' && AllDigits(s[1..]) && DigitsValue(s[1..]) == -n
    ensures |s| >= 6
  {
    if n >= 0 then
      NatToStringValue(n);
      ZeroPadValue(NatToString(n), 6);
      ZeroPad(NatToString(n), 6)
    else
      NatToStringValue(-n);
      ZeroPadValue(NatToString(-n), 5);
      "-" + ZeroPad(NatToString(-n), 5)
  }

  /** generate_order_number: the prefix, a dash and the id in "06d" form. */
  function OrderNumber(prefix: string, id: int): (s: string)
    ensures |s| >= |prefix| + 7
    ensures s[..|prefix|] == prefix && s[|prefix|] == '-'
  {
    prefix + "-" + Format06d(id)
  }

  /** The digits after "<prefix>-" read back as the id. */
  lemma OrderNumberRoundTrip(prefix: string, id: int)
    requires id >= 0
    ensures var digits := OrderNumber(prefix, id)[|prefix| + 1..];
      AllDigits(digits) && DigitsValue(digits) == id
  {
    assert OrderNumber(prefix, id)[|prefix| + 1..] == Format06d(id);
  }

  /** An id below one million takes exactly six digits. */
  lemma SixDigits(id: int)
    requires 0 <= id < 1000000
    ensures |Format06d(id)| == 6
  {
    assert Pow10(6) == 1000000;
    NatToStringLength(id, 6);
  }

  /** Different ids give different order numbers under the same prefix. */
  lemma OrderNumberInjective(prefix: string, a: int, b: int)
    requires OrderNumber(prefix, a) == OrderNumber(prefix, b)
    ensures a == b
  {
    assert Format06d(a) == OrderNumber(prefix, a)[|prefix| + 1..];
    assert Format06d(b) == OrderNumber(prefix, b)[|prefix| + 1..];
    assert Format06d(a) == Format06d(b);
  }

  /** The invoice number of a sales order: "INV-" and the order number without its first
      three characters (nothing of it when it is shorter). */
  function InvoiceNumber(orderNumber: string): (s: string)
    ensures |s| >= 4 && s[..4] == "INV-"
    ensures |orderNumber| >= 3 ==> |s| == |orderNumber| + 1
  {
    "INV-" + (if |orderNumber| >= 3 then orderNumber[3..] else "")
  }

  /** For a two-letter prefix such as "SO" the invoice number is the order number under
      the prefix "INV": "SO-000042" becomes "INV-000042". */
  lemma InvoiceNumberOfOrder(prefix: string, id: int)
    requires |prefix| == 2
    ensures InvoiceNumber(OrderNumber(prefix, id)) == OrderNumber("INV", id)
  {
    var digits := Format06d(id);
    var order := prefix + "-" + digits;
    assert OrderNumber(prefix, id) == order;
    assert order[3..] == digits;
    assert InvoiceNumber(order) == "INV-" + digits;
  }

  lemma InvoiceNumberExample()
    ensures OrderNumber("SO", 42) == "SO-000042"
    ensures InvoiceNumber("SO-000042") == "INV-000042"
  {
    assert NatToString(42) == "42" by {
      assert NatToString(4) == "4";
    }
    assert Format06d(42) == "000042";
  }

  /** random_date with the outcome of randrange as a parameter: `pick` stands for the
      random number of days and is taken modulo the number of whole days between the
      two dates. An empty range, which randrange refuses, is the failure. */
  function RandomDate(start: int, end: int, pick: nat): (r: Result<int, string>)
    ensures start >= end ==> r == Success(start)
    ensures r.Failure? <==> start < end && end - start < ProductionModels.SecondsPerDay
    ensures r.Success? && start < end ==>
      start <= r.value < end && (r.value - start) % ProductionModels.SecondsPerDay == 0
  {
    if start >= end then Success(start)
    else
      var days := (end - start) / ProductionModels.SecondsPerDay;
      if days == 0 then Failure("empty range for randrange")
      else
        var offset := pick % days;
        assert offset * ProductionModels.SecondsPerDay <= (days - 1) * ProductionModels.SecondsPerDay;
        Success(start + offset * ProductionModels.SecondsPerDay)
  }

  /** Every whole day between two dates can come out of random_date. */
  lemma RandomDateCoversRange(start: int, end: int, day: nat)
    requires start < end && day < (end - start) / ProductionModels.SecondsPerDay
    ensures RandomDate(start, end, day) == Success(start + day * ProductionModels.SecondsPerDay)
  {
  }

  /** The delivery-date clamp: a date after the current date becomes the current date. */
  function ClampToCurrent(date: int, current: int): (r: int)
    ensures r <= current
    ensures r == date || r == current
    ensures date <= current ==> r == date
  {
    if date > current then current else date
  }
}

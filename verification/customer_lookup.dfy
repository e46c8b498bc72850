/** Looking a customer up by mobile number (app/api/v1/billing/customer_lookup.py):
    the number is validated first, then matched exactly against the stored
    customers. */
module CustomerLookup {
  import opened Wrappers

  /** A stored customer (app/models/customer.py). */
  datatype CustomerRecord = CustomerRecord(id: int, name: string, mobileNumber: string, address: Option<string>)

  datatype LookupError = InvalidFormat | CustomerNotFound

  function StatusCode(e: LookupError): (code: int)
    ensures e.InvalidFormat? <==> code == 400
    ensures e.CustomerNotFound? <==> code == 404
  {
    match e
    case InvalidFormat => 400
    case CustomerNotFound => 404
  }

  predicate IsDigit(c: char) {
    '0' <= c <= '9'
  }

  /** `str.isdigit()`: at least one character, and every character a digit. */
  predicate IsDigitString(s: string) {
    s != [] && forall i :: 0 <= i < |s| ==> IsDigit(s[i])
  }

  /** The server-side check: digits only, ten to fifteen of them. */
  predicate ValidMobile(s: string) {
    IsDigitString(s) && 10 <= |s| <= 15
  }

  /** The customer schema's pattern `^\d{10,15}$`, read as a matcher that
      consumes one digit at a time, between `least` and `most` of them. */
  predicate DigitRepeat(s: string, least: nat, most: nat)
    decreases |s|
  {
    if s == [] then least == 0
    else most > 0 && IsDigit(s[0]) && DigitRepeat(s[1..], if least > 0 then least - 1 else 0, most - 1)
  }

  predicate MatchesSchemaPattern(s: string) {
    DigitRepeat(s, 10, 15)
  }

  lemma {:induction false} DigitRepeatMeaning(s: string, least: nat, most: nat)
    ensures DigitRepeat(s, least, most) <==>
      (forall i :: 0 <= i < |s| ==> IsDigit(s[i])) && least <= |s| <= most
    decreases |s|
  {
    if s != [] {
      var rest := s[1..];
      DigitRepeatMeaning(rest, if least > 0 then least - 1 else 0, if most > 0 then most - 1 else 0);
      if (forall i :: 0 <= i < |s| ==> IsDigit(s[i])) {
        assert forall i :: 0 <= i < |rest| ==> IsDigit(rest[i]) by {
          forall i | 0 <= i < |rest|
            ensures IsDigit(rest[i])
          {
            assert rest[i] == s[i + 1];
          }
        }
      }
      if IsDigit(s[0]) && (forall i :: 0 <= i < |rest| ==> IsDigit(rest[i])) {
        forall i | 0 <= i < |s|
          ensures IsDigit(s[i])
        {
          if i > 0 {
            assert s[i] == rest[i - 1];
          }
        }
      }
    }
  }

  /** The server check accepts exactly the numbers the schema pattern
      accepts. */
  lemma {:induction false} ValidMobileIsSchemaPattern(s: string)
    ensures ValidMobile(s) <==> MatchesSchemaPattern(s)
  {
    DigitRepeatMeaning(s, 10, 15);
  }

  /** The first stored customer whose number equals `mobile` exactly. */
  function FirstWithMobile(db: seq<CustomerRecord>, mobile: string): (r: Option<CustomerRecord>)
    ensures r.None? <==> forall c :: c in db ==> c.mobileNumber != mobile
    ensures r.Some? ==> r.value in db && r.value.mobileNumber == mobile
  {
    if db == [] then None
    else if db[0].mobileNumber == mobile then Some(db[0])
    else
      var r := FirstWithMobile(db[1..], mobile);
      assert forall c :: c in db ==> c == db[0] || c in db[1..];
      r
  }

  /** `lookup_customer` */
  function LookupCustomer(mobile: string, db: seq<CustomerRecord>): (r: Result<CustomerRecord, LookupError>)
    ensures !ValidMobile(mobile) <==> r == Failure(InvalidFormat)
    ensures ValidMobile(mobile) && (forall c :: c in db ==> c.mobileNumber != mobile) ==> r == Failure(CustomerNotFound)
    ensures r.Success? ==> ValidMobile(mobile) && r.value in db && r.value.mobileNumber == mobile
    ensures r.Failure? ==> StatusCode(r.error) == 400 || StatusCode(r.error) == 404
  {
    if !ValidMobile(mobile) then Failure(InvalidFormat)
    else
      match FirstWithMobile(db, mobile)
      case None => Failure(CustomerNotFound)
      case Some(c) => Success(c)
  }

  /** A valid number that some customer has is always found. */
  lemma {:induction false} StoredCustomerFound(mobile: string, db: seq<CustomerRecord>, c: CustomerRecord)
    requires ValidMobile(mobile) && c in db && c.mobileNumber == mobile
    ensures LookupCustomer(mobile, db).Success?
    ensures LookupCustomer(mobile, db).value.mobileNumber == c.mobileNumber
  {
  }

  /** Validation comes before the query: an invalid number gets the same
      answer whatever is stored. */
  lemma {:induction false} InvalidIgnoresStore(mobile: string, db1: seq<CustomerRecord>, db2: seq<CustomerRecord>)
    requires !ValidMobile(mobile)
    ensures LookupCustomer(mobile, db1) == LookupCustomer(mobile, db2)
    ensures StatusCode(LookupCustomer(mobile, db1).error) == 400
  {
  }

  /** Any character other than a digit makes the number invalid, whatever its
      length. */
  lemma {:induction false} NonDigitRejected(mobile: string, k: int)
    requires 0 <= k < |mobile| && !IsDigit(mobile[k])
    ensures !ValidMobile(mobile)
  {
  }

  /** A space inside the number, or a leading plus sign, is rejected. */
  lemma {:induction false} FormattedNumbersRejected(spaced: string, international: string)
    requires spaced == "98765 43210"
    requires international == "+919876543210"
    ensures !ValidMobile(spaced) && !ValidMobile(international)
  {
    NonDigitRejected(spaced, 5);
    NonDigitRejected(international, 0);
  }
}

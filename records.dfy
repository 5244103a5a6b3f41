/**
  The typed records of the API and how each is read from JSON. A struct is read
  from an object by field name: unknown fields are ignored, a missing required
  field fails, an `Option` field may be missing or `null`. Each decoder has an
  encoder beside it and a lemma that reading back what was written gives the
  record again.
*/
module Records {
  import opened Wrappers
  import opened JsonValues
  import opened Envelope

  datatype Token = Token(token: string)
  datatype UserPerson = UserPerson(id: i64)

  /** What `POST /v1/installation` returns, once flattened. */
  datatype InstallationResponse = InstallationResponse(token: Token)

  /** What `POST /v1/session-server` returns, once flattened. */
  datatype SessionServerResponse = SessionServerResponse(token: Token, userPerson: UserPerson)

  datatype LabelMonetaryAccount = LabelMonetaryAccount(iban: Option<string>, displayName: string, merchantCategoryCode: Option<string>)
  datatype Amount = Amount(value: string, currency: string)

  datatype Payment = Payment(
    alias: LabelMonetaryAccount,
    counterpartyAlias: LabelMonetaryAccount,
    amount: Amount,
    balanceAfterMutation: Amount,
    created: string,
    updated: string,
    description: string,
    id: i64,
    monetaryAccountId: i64,
    paymentType: string,
    subType: string)

  /** A list element of the payment endpoint: `{"Payment": {...}}`. */
  datatype PaymentPayment = PaymentPayment(payment: Payment)

  datatype MonetaryAccountBank = MonetaryAccountBank(id: i64, description: string)

  /** A list element of the account endpoint: `{"MonetaryAccountBank": {...}}`. */
  datatype MonetaryAccount = MonetaryAccount(monetaryAccountBank: MonetaryAccountBank)

  // ---------------------------------------------------------------------------
  // Token and user
  // ---------------------------------------------------------------------------

  function DecodeToken(j: Json): Result<Token>
  {
    match j
    case Obj(fields) =>
      var token :- StringField(fields, "token");
      Ok(Token(token))
    case _ => Err(DecodeError("Token"))
  }

  function EncodeToken(t: Token): Json
  {
    Obj([("token", Str(t.token))])
  }

  function DecodeUserPerson(j: Json): Result<UserPerson>
  {
    match j
    case Obj(fields) =>
      var id :- I64Field(fields, "id");
      Ok(UserPerson(id))
    case _ => Err(DecodeError("UserPerson"))
  }

  function EncodeUserPerson(u: UserPerson): Json
  {
    Obj([("id", Num(u.id as int))])
  }

  /** Field "Token" of the merged object. */
  function DecodeInstallationResponse(merged: map<string, Json>): Result<InstallationResponse>
  {
    if "Token" !in merged then Err(DecodeError("Token"))
    else
      var token :- DecodeToken(merged["Token"]);
      Ok(InstallationResponse(token))
  }

  /** Fields "Token" and "UserPerson" of the merged object. */
  function DecodeSessionServerResponse(merged: map<string, Json>): Result<SessionServerResponse>
  {
    if "Token" !in merged then Err(DecodeError("Token"))
    else if "UserPerson" !in merged then Err(DecodeError("UserPerson"))
    else
      var token :- DecodeToken(merged["Token"]);
      var user :- DecodeUserPerson(merged["UserPerson"]);
      Ok(SessionServerResponse(token, user))
  }

  /** How the server writes an installation reply: one single-entry object. */
  function FlattenInstallationResponse(r: InstallationResponse): seq<Json>
  {
    [Obj([("Token", EncodeToken(r.token))])]
  }

  /** How the server writes a session reply: one single-entry object per field. */
  function FlattenSessionServerResponse(r: SessionServerResponse): seq<Json>
  {
    [Obj([("Token", EncodeToken(r.token))]), Obj([("UserPerson", EncodeUserPerson(r.userPerson))])]
  }

  lemma TokenRoundTrip(t: Token)
    ensures DecodeToken(EncodeToken(t)) == Ok(t)
  {
    GetAt(EncodeToken(t).fields, 0, "token");
  }

  lemma UserPersonRoundTrip(u: UserPerson)
    ensures DecodeUserPerson(EncodeUserPerson(u)) == Ok(u)
  {
    GetAt(EncodeUserPerson(u).fields, 0, "id");
  }

  /** A flattened installation reply decodes to the record it was written from. */
  lemma InstallationResponseRoundTrip(r: InstallationResponse, p: Option<Pagination>)
    ensures Flattened(RawResponse(FlattenInstallationResponse(r), p), DecodeInstallationResponse) == Ok(Response(r, p))
  {
    var elems := FlattenInstallationResponse(r);
    assert Merge(elems) == Ok(map["Token" := EncodeToken(r.token)]) by {
      assert MergeFrom(map[], elems) == MergeFrom(map["Token" := EncodeToken(r.token)], elems[1..]);
      assert elems[1..] == [];
    }
    TokenRoundTrip(r.token);
  }

  /** A flattened session reply decodes to the record it was written from. */
  lemma SessionServerResponseRoundTrip(r: SessionServerResponse, p: Option<Pagination>)
    ensures Flattened(RawResponse(FlattenSessionServerResponse(r), p), DecodeSessionServerResponse) == Ok(Response(r, p))
  {
    var elems := FlattenSessionServerResponse(r);
    var m1 := map["Token" := EncodeToken(r.token)];
    var m2 := m1["UserPerson" := EncodeUserPerson(r.userPerson)];
    assert Merge(elems) == Ok(m2) by {
      assert MergeFrom(map[], elems) == MergeFrom(m1, elems[1..]);
      assert MergeFrom(m1, elems[1..]) == MergeFrom(m2, elems[2..]);
      assert elems[2..] == [];
    }
    TokenRoundTrip(r.token);
    UserPersonRoundTrip(r.userPerson);
  }

  /**
    An empty `Response` array merges to an empty object without error; it is
    the typed decoding that then fails, on the missing "Token" field.
  */
  lemma EmptyFlattenedReplyFails(p: Option<Pagination>)
    ensures Merge([]) == Ok(map[])
    ensures Flattened(RawResponse([], p), DecodeInstallationResponse) == Err(DecodeError("Token"))
    ensures Flattened(RawResponse([], p), DecodeSessionServerResponse) == Err(DecodeError("Token"))
  {
  }

  // ---------------------------------------------------------------------------
  // Accounts
  // ---------------------------------------------------------------------------

  function DecodeMonetaryAccountBank(j: Json): Result<MonetaryAccountBank>
  {
    match j
    case Obj(fields) =>
      var id :- I64Field(fields, "id");
      var description :- StringField(fields, "description");
      Ok(MonetaryAccountBank(id, description))
    case _ => Err(DecodeError("MonetaryAccountBank"))
  }

  function DecodeMonetaryAccount(j: Json): Result<MonetaryAccount>
  {
    match j
    case Obj(fields) =>
      var bank :- Field(fields, "MonetaryAccountBank");
      var account :- DecodeMonetaryAccountBank(bank);
      Ok(MonetaryAccount(account))
    case _ => Err(DecodeError("MonetaryAccount"))
  }

  function EncodeMonetaryAccountBank(a: MonetaryAccountBank): Json
  {
    Obj([("id", Num(a.id as int)), ("description", Str(a.description))])
  }

  function EncodeMonetaryAccount(m: MonetaryAccount): Json
  {
    Obj([("MonetaryAccountBank", EncodeMonetaryAccountBank(m.monetaryAccountBank))])
  }

  lemma MonetaryAccountRoundTrip(m: MonetaryAccount)
    ensures DecodeMonetaryAccount(EncodeMonetaryAccount(m)) == Ok(m)
  {
    GetAt(EncodeMonetaryAccount(m).fields, 0, "MonetaryAccountBank");
    var bank := EncodeMonetaryAccountBank(m.monetaryAccountBank);
    GetAt(bank.fields, 0, "id");
    GetAt(bank.fields, 1, "description");
  }

  // ---------------------------------------------------------------------------
  // Payments
  // ---------------------------------------------------------------------------

  function DecodeLabel(j: Json, what: string): Result<LabelMonetaryAccount>
  {
    match j
    case Obj(fields) =>
      var iban :- OptionalStringField(fields, "iban");
      var displayName :- StringField(fields, "display_name");
      var code :- OptionalStringField(fields, "merchant_category_code");
      Ok(LabelMonetaryAccount(iban, displayName, code))
    case _ => Err(DecodeError(what))
  }

  function DecodeAmount(j: Json, what: string): Result<Amount>
  {
    match j
    case Obj(fields) =>
      var value :- StringField(fields, "value");
      var currency :- StringField(fields, "currency");
      Ok(Amount(value, currency))
    case _ => Err(DecodeError(what))
  }

  function LabelField(fields: seq<(string, Json)>, key: string): Result<LabelMonetaryAccount>
  {
    var v :- Field(fields, key);
    DecodeLabel(v, key)
  }

  function AmountField(fields: seq<(string, Json)>, key: string): Result<Amount>
  {
    var v :- Field(fields, key);
    DecodeAmount(v, key)
  }

  function DecodePayment(j: Json): Result<Payment>
  {
    match j
    case Obj(fields) =>
      var alias :- LabelField(fields, "alias");
      var counterparty :- LabelField(fields, "counterparty_alias");
      var amount :- AmountField(fields, "amount");
      var balance :- AmountField(fields, "balance_after_mutation");
      var created :- StringField(fields, "created");
      var updated :- StringField(fields, "updated");
      var description :- StringField(fields, "description");
      var id :- I64Field(fields, "id");
      var accountId :- I64Field(fields, "monetary_account_id");
      var paymentType :- StringField(fields, "type");
      var subType :- StringField(fields, "sub_type");
      Ok(Payment(alias, counterparty, amount, balance, created, updated, description, id, accountId, paymentType, subType))
    case _ => Err(DecodeError("Payment"))
  }

  function DecodePaymentPayment(j: Json): Result<PaymentPayment>
  {
    match j
    case Obj(fields) =>
      var payment :- Field(fields, "Payment");
      var p :- DecodePayment(payment);
      Ok(PaymentPayment(p))
    case _ => Err(DecodeError("PaymentPayment"))
  }

  function EncodeLabel(l: LabelMonetaryAccount): Json
  {
    Obj([("iban", OptionalString(l.iban)),
         ("display_name", Str(l.displayName)),
         ("merchant_category_code", OptionalString(l.merchantCategoryCode))])
  }

  function EncodeAmount(a: Amount): Json
  {
    Obj([("value", Str(a.value)), ("currency", Str(a.currency))])
  }

  function EncodePayment(p: Payment): Json
  {
    Obj([("alias", EncodeLabel(p.alias)),
         ("counterparty_alias", EncodeLabel(p.counterpartyAlias)),
         ("amount", EncodeAmount(p.amount)),
         ("balance_after_mutation", EncodeAmount(p.balanceAfterMutation)),
         ("created", Str(p.created)),
         ("updated", Str(p.updated)),
         ("description", Str(p.description)),
         ("id", Num(p.id as int)),
         ("monetary_account_id", Num(p.monetaryAccountId as int)),
         ("type", Str(p.paymentType)),
         ("sub_type", Str(p.subType))])
  }

  function EncodePaymentPayment(w: PaymentPayment): Json
  {
    Obj([("Payment", EncodePayment(w.payment))])
  }

  lemma LabelRoundTrip(l: LabelMonetaryAccount, what: string)
    ensures DecodeLabel(EncodeLabel(l), what) == Ok(l)
  {
    var fields := EncodeLabel(l).fields;
    GetAt(fields, 0, "iban");
    GetAt(fields, 1, "display_name");
    GetAt(fields, 2, "merchant_category_code");
  }

  lemma AmountRoundTrip(a: Amount, what: string)
    ensures DecodeAmount(EncodeAmount(a), what) == Ok(a)
  {
    var fields := EncodeAmount(a).fields;
    GetAt(fields, 0, "value");
    GetAt(fields, 1, "currency");
  }

  lemma PaymentRoundTrip(p: Payment)
    ensures DecodePayment(EncodePayment(p)) == Ok(p)
  {
    var fields := EncodePayment(p).fields;
    var a, b, c, d := EncodeLabel(p.alias), EncodeLabel(p.counterpartyAlias), EncodeAmount(p.amount), EncodeAmount(p.balanceAfterMutation);
    var e, f, g, h := Str(p.created), Str(p.updated), Str(p.description), Num(p.id as int);
    var i, j, k := Num(p.monetaryAccountId as int), Str(p.paymentType), Str(p.subType);
    assert PaymentShape(fields, a, b, c, d, e, f, g, h, i, j, k);
    PaymentPartiesAt(fields, a, b, c, d, e, f, g, h, i, j, k);
    PaymentDetailsAt(fields, a, b, c, d, e, f, g, h, i, j, k);
    PaymentIdentityAt(fields, a, b, c, d, e, f, g, h, i, j, k);
    LabelRoundTrip(p.alias, "alias");
    LabelRoundTrip(p.counterpartyAlias, "counterparty_alias");
    AmountRoundTrip(p.amount, "amount");
    AmountRoundTrip(p.balanceAfterMutation, "balance_after_mutation");
  }

  /** The field layout of an encoded payment. */
  ghost predicate PaymentShape(fields: seq<(string, Json)>, a: Json, b: Json, c: Json, d: Json, e: Json, f: Json,
                               g: Json, h: Json, i: Json, j: Json, k: Json)
  {
    fields == [("alias", a), ("counterparty_alias", b), ("amount", c), ("balance_after_mutation", d),
               ("created", e), ("updated", f), ("description", g), ("id", h),
               ("monetary_account_id", i), ("type", j), ("sub_type", k)]
  }

  lemma PaymentPartiesAt(fields: seq<(string, Json)>, a: Json, b: Json, c: Json, d: Json, e: Json, f: Json,
                         g: Json, h: Json, i: Json, j: Json, k: Json)
    requires PaymentShape(fields, a, b, c, d, e, f, g, h, i, j, k)
    ensures Get(fields, "alias") == Some(a) && Get(fields, "counterparty_alias") == Some(b)
    ensures Get(fields, "amount") == Some(c) && Get(fields, "balance_after_mutation") == Some(d)
  {
    GetAt(fields, 0, "alias");
    GetAt(fields, 1, "counterparty_alias");
    GetAt(fields, 2, "amount");
    GetAt(fields, 3, "balance_after_mutation");
  }

  lemma PaymentDetailsAt(fields: seq<(string, Json)>, a: Json, b: Json, c: Json, d: Json, e: Json, f: Json,
                         g: Json, h: Json, i: Json, j: Json, k: Json)
    requires PaymentShape(fields, a, b, c, d, e, f, g, h, i, j, k)
    ensures Get(fields, "created") == Some(e) && Get(fields, "updated") == Some(f)
    ensures Get(fields, "description") == Some(g) && Get(fields, "id") == Some(h)
  {
    GetAt(fields, 4, "created");
    GetAt(fields, 5, "updated");
    GetAt(fields, 6, "description");
    GetAt(fields, 7, "id");
  }

  lemma PaymentIdentityAt(fields: seq<(string, Json)>, a: Json, b: Json, c: Json, d: Json, e: Json, f: Json,
                          g: Json, h: Json, i: Json, j: Json, k: Json)
    requires PaymentShape(fields, a, b, c, d, e, f, g, h, i, j, k)
    ensures Get(fields, "monetary_account_id") == Some(i) && Get(fields, "type") == Some(j)
    ensures Get(fields, "sub_type") == Some(k)
  {
    GetAt(fields, 8, "monetary_account_id");
    GetAt(fields, 9, "type");
    GetAt(fields, 10, "sub_type");
  }

  lemma PaymentPaymentRoundTrip(w: PaymentPayment)
    ensures DecodePaymentPayment(EncodePaymentPayment(w)) == Ok(w)
  {
    GetAt(EncodePaymentPayment(w).fields, 0, "Payment");
    PaymentRoundTrip(w.payment);
  }
}

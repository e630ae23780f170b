/**
 * The snapshot records (`Balance`, `PhoneDetails`) and their extraction from
 * the decoded body of a details reply.
 */
module Details {
  import opened Wrappers
  import opened Json

  const BalancesKey := "customerBalancesDto"
  const GeneralBalance := "generalBalance"
  const VoiceBalance := "complexBundleVoiceBalance"
  const SmsBalance := "smsBalance"
  const DataBalance := "dataBalance"

  /** A quantity and its unit, copied unchanged from the reply. */
  datatype Balance = Balance(quantity: Json, unit: Json)

  /** One phone's snapshot; `phoneId` is the reply's `msisdn`. */
  datatype PhoneDetails = PhoneDetails(
    phoneId: Json,
    name: Json,
    accountBalance: Balance,
    voiceBalance: Balance,
    textBalance: Balance,
    dataBalance: Balance)

  /** The balance node `name` is present with both of its members. */
  predicate HasBalance(j: Json, name: string) {
    && Has(j, BalancesKey)
    && Has(j.fields[BalancesKey], name)
    && Has(j.fields[BalancesKey].fields[name], "quantity")
    && Has(j.fields[BalancesKey].fields[name], "unit")
  }

  /** A body from which a complete snapshot can be built. */
  predicate WellFormed(j: Json) {
    && Has(j, "msisdn")
    && Has(j, "name")
    && HasBalance(j, GeneralBalance)
    && HasBalance(j, VoiceBalance)
    && HasBalance(j, SmsBalance)
    && HasBalance(j, DataBalance)
  }

  /** The (quantity, unit) pair stored under balance node `name`. */
  function BalanceAt(j: Json, name: string): Balance
    requires HasBalance(j, name)
  {
    var node := j.fields[BalancesKey].fields[name];
    Balance(node.fields["quantity"], node.fields["unit"])
  }

  /** The snapshot a well-formed body describes, field by field. */
  function Snapshot(j: Json): PhoneDetails
    requires WellFormed(j)
  {
    PhoneDetails(
      j.fields["msisdn"], j.fields["name"],
      BalanceAt(j, GeneralBalance), BalanceAt(j, VoiceBalance),
      BalanceAt(j, SmsBalance), BalanceAt(j, DataBalance))
  }

  /** `extract_balance`: nested lookups that raise on the first missing step. */
  function ExtractBalance(j: Json, name: string): (r: Attempt<Balance>)
    ensures r.Ok? <==> HasBalance(j, name)
    ensures r.Ok? ==> r.value == BalanceAt(j, name)
    ensures !Has(j, BalancesKey) ==> r == Err(if j.JObject? then KeyError(BalancesKey) else TypeError)
    ensures Has(j, BalancesKey) && j.fields[BalancesKey].JObject? && !Has(j.fields[BalancesKey], name)
            ==> r == Err(KeyError(name))
  {
    var dto :- Lookup(j, BalancesKey);
    var node :- Lookup(dto, name);
    var quantity :- Lookup(node, "quantity");
    var unit :- Lookup(node, "unit");
    Ok(Balance(quantity, unit))
  }

  /** The four balance nodes, in the order `extract_phone_details` reads them. */
  const BalanceNames := [GeneralBalance, VoiceBalance, SmsBalance, DataBalance]

  /**
   * The body of `extract_phone_details` after the fetch: four balances, then
   * `msisdn` and `name`. It succeeds exactly on well-formed bodies and then
   * yields their snapshot; no partial record is ever produced.
   */
  function ExtractDetails(j: Json): (r: Attempt<PhoneDetails>)
    ensures r.Ok? <==> WellFormed(j)
    ensures r.Ok? ==> r.value == Snapshot(j)
    ensures !Has(j, BalancesKey) ==> r == Err(if j.JObject? then KeyError(BalancesKey) else TypeError)
  {
    var account :- ExtractBalance(j, GeneralBalance);
    var voice :- ExtractBalance(j, VoiceBalance);
    var text :- ExtractBalance(j, SmsBalance);
    var data :- ExtractBalance(j, DataBalance);
    var msisdn :- Lookup(j, "msisdn");
    var name :- Lookup(j, "name");
    Ok(PhoneDetails(msisdn, name, account, voice, text, data))
  }

  /** `extract_phone_details` on what `get_raw_details` returned: `None` raises. */
  function ExtractPhoneDetailsFrom(raw: Option<Json>): (r: Attempt<PhoneDetails>)
    ensures raw.None? ==> r == Err(EndpointReturnedNone)
    ensures r.Ok? <==> raw.Some? && WellFormed(raw.value)
    ensures r.Ok? ==> r.value == Snapshot(raw.value)
  {
    match raw
    case None => Err(EndpointReturnedNone)
    case Some(j) => ExtractDetails(j)
  }

  /** The empty body `{}` (what a fetch without a session yields) fails on the first lookup. */
  lemma EmptyBodyFails()
    ensures ExtractDetails(JObject(map[])) == Err(KeyError(BalancesKey))
  {
  }

  /**
   * When the balances node is an object and balance `k` is the first one
   * missing, extraction raises a KeyError naming exactly that balance.
   */
  lemma MissingBalanceIsReported(j: Json, k: nat)
    requires k < |BalanceNames|
    requires Has(j, BalancesKey) && j.fields[BalancesKey].JObject?
    requires forall i :: 0 <= i < k ==> HasBalance(j, BalanceNames[i])
    requires !Has(j.fields[BalancesKey], BalanceNames[k])
    ensures ExtractDetails(j) == Err(KeyError(BalanceNames[k]))
  {
    if k == 0 {
    } else if k == 1 {
      assert HasBalance(j, BalanceNames[0]);
    } else if k == 2 {
      assert HasBalance(j, BalanceNames[0]) && HasBalance(j, BalanceNames[1]);
    } else {
      assert HasBalance(j, BalanceNames[0]) && HasBalance(j, BalanceNames[1]) && HasBalance(j, BalanceNames[2]);
    }
  }
}

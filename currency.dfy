/** The currency setting (lib/currency.tsx): the fixed table of supported
    currencies, the default, and how the provider resolves the current
    currency from local storage and the user's saved setting. Local storage
    is the single entry under `StorageKey`; the settings query and upsert
    are inputs and outputs of the methods. */
module CurrencySetting {
  import opened Optional
  import opened Seqs

  datatype Currency = Currency(code: string, symbol: string, name: string)

  const StorageKey: string := "foretrack_currency"

  const Currencies: seq<Currency> := [
    Currency("USD", "$", "US Dollar"),
    Currency("EUR", "€", "Euro"),
    Currency("GBP", "£", "British Pound"),
    Currency("INR", "₹", "Indian Rupee"),
    Currency("JPY", "¥", "Japanese Yen"),
    Currency("CAD", "C$", "Canadian Dollar"),
    Currency("AUD", "A$", "Australian Dollar"),
    Currency("CHF", "CHF", "Swiss Franc"),
    Currency("CNY", "¥", "Chinese Yuan"),
    Currency("KRW", "₩", "South Korean Won"),
    Currency("BRL", "R$", "Brazilian Real"),
    Currency("MXN", "$", "Mexican Peso"),
    Currency("SGD", "S$", "Singapore Dollar"),
    Currency("AED", "د.إ", "UAE Dirham"),
    Currency("ZAR", "R", "South African Rand")
  ]

  /** The codes are pairwise distinct, so a code names at most one currency. */
  lemma CodesDistinct()
    ensures forall i, j :: 0 <= i < j < |Currencies| ==> Currencies[i].code != Currencies[j].code
  {
  }

  /** The predicate `find` is given: `(c) => c.code === code`. */
  function HasCode(code: string): Currency -> bool
  {
    (c: Currency) => c.code == code
  }

  /** `table.find((c) => c.code === code)`. */
  function FindIn(table: seq<Currency>, code: string): (r: Option<Currency>)
    ensures r.None? <==> forall i :: 0 <= i < |table| ==> table[i].code != code
    ensures r.Some? ==> r.value in table && r.value.code == code
  {
    FindFirst(table, HasCode(code))
  }

  /** `currencies.find((c) => c.code === code)` on the supported table. */
  function FindByCode(code: string): (r: Option<Currency>)
    ensures r.None? <==> forall i :: 0 <= i < |Currencies| ==> Currencies[i].code != code
    ensures r.Some? ==> r.value in Currencies && r.value.code == code
  {
    FindIn(Currencies, code)
  }

  /** Every listed code finds its own entry. */
  lemma FindByCodeFindsEntry(i: nat)
    requires i < |Currencies|
    ensures FindByCode(Currencies[i].code) == Some(Currencies[i])
  {
    CodesDistinct();
    FindFirstAt(Currencies, HasCode(Currencies[i].code), i);
    assert FindByCode(Currencies[i].code) == FindFirst(Currencies, HasCode(Currencies[i].code));
  }

  /** Every code has three letters, so the empty string finds nothing. */
  lemma EmptyCodeUnknown()
    ensures FindByCode("").None?
  {
    assert forall i :: 0 <= i < |Currencies| ==> |Currencies[i].code| == 3;
  }

  /** `if (code) { currencies.find(...) }`: a missing or empty code is
      falsy and looks nothing up; any other code is searched for. */
  function Known(code: Option<string>): (r: Option<Currency>)
    ensures code.None? ==> r.None?
    ensures code.Some? ==> r == FindByCode(code.value)
  {
    if code.None? then None
    else if code.value == "" then EmptyCodeUnknown(); None
    else FindByCode(code.value)
  }

  /** `if (saved) { found = find(saved); if (found) set(found) }`: a code that
      is present and listed selects its currency; anything else leaves
      `current` as it is. */
  function Resolve(current: Currency, code: Option<string>): (r: Currency)
    ensures code.Some? && FindByCode(code.value).Some? ==> r == FindByCode(code.value).value
    ensures (code.None? || FindByCode(code.value).None?) ==> r == current
    ensures r == current || r in Currencies
  {
    var found := Known(code);
    if found.Some? then found.value else current
  }

  /** The user's saved setting as the query returns it: an error, or a row
      whose `currency` may be missing (`None` also stands for no row). */
  datatype SavedSetting = QueryFailed | Saved(currency: Option<string>)

  /** The state `loadUserCurrency` leaves, as (currency, stored code): the
      stored code is applied first; a known saved code then wins and is
      written back to storage; a failed query keeps what storage gave. */
  function AfterUserLoad(current: Currency, stored: Option<string>, saved: SavedSetting): (Currency, Option<string>)
  {
    var fromStorage := Resolve(current, stored);
    match saved
    case QueryFailed => (fromStorage, stored)
    case Saved(code) =>
      var found := Known(code);
      if found.Some? then (found.value, Some(found.value.code)) else (fromStorage, stored)
  }

  /** Precedence: a known saved code overrides the stored one and is stored;
      an unknown or missing saved code and a failed query keep the stored
      code's currency, or the current one when the stored code is unknown
      too. */
  lemma AfterUserLoadSpec(current: Currency, stored: Option<string>, saved: SavedSetting)
    ensures saved.Saved? && saved.currency.Some? && FindByCode(saved.currency.value).Some? ==>
              AfterUserLoad(current, stored, saved) == (FindByCode(saved.currency.value).value, saved.currency)
    ensures !(saved.Saved? && saved.currency.Some? && FindByCode(saved.currency.value).Some?) ==>
              AfterUserLoad(current, stored, saved) == (Resolve(current, stored), stored)
    ensures !(saved.Saved? && saved.currency.Some? && FindByCode(saved.currency.value).Some?) &&
            (stored.None? || FindByCode(stored.value).None?) ==>
              AfterUserLoad(current, stored, saved).0 == current
  {
    if saved.Saved? {
      var found := Known(saved.currency);
      assert found.Some? <==> saved.currency.Some? && FindByCode(saved.currency.value).Some?;
    }
  }

  /** Loading keeps the current currency or selects a listed one, so it
      never leaves the table. */
  lemma AfterUserLoadListed(current: Currency, stored: Option<string>, saved: SavedSetting)
    ensures var c := AfterUserLoad(current, stored, saved).0;
            c == current || c in Currencies
  {
    if saved.Saved? && Known(saved.currency).Some? {
      assert AfterUserLoad(current, stored, saved).0 == Known(saved.currency).value;
    } else {
      assert AfterUserLoad(current, stored, saved).0 == Resolve(current, stored);
    }
  }

  /** `CurrencyProvider`'s state and the local-storage entry. */
  class Provider {
    var currency: Currency
    var loading: bool
    var stored: Option<string>

    /** The first render: the first table entry, loading. */
    constructor(storedCode: Option<string>)
      ensures currency == Currencies[0] && currency.code == "USD"
      ensures loading && stored == storedCode
    {
      currency, loading, stored := Currencies[0], true, storedCode;
    }

    /** `loadUserCurrency`, with the query's result as an input. Without a
        user it returns at once, leaving `loading` as it was. */
    method LoadUserCurrency(signedIn: bool, saved: SavedSetting)
      modifies this
      ensures !signedIn ==> currency == old(currency) && stored == old(stored) && loading == old(loading)
      ensures signedIn ==> (currency, stored) == AfterUserLoad(old(currency), old(stored), saved) && !loading
    {
      if !signedIn {
        return;
      }
      currency := Resolve(currency, stored);
      if saved.Saved? {
        var found := Known(saved.currency);
        if found.Some? {
          currency := found.value;
          stored := Some(found.value.code);
        }
      }
      loading := false;
    }

    /** The effect on `[user, isLoaded]`: nothing until Clerk has loaded;
        then the signed-in path loads the saved setting, and the signed-out
        path applies the stored code and stops loading. */
    method OnAuthChange(isLoaded: bool, signedIn: bool, saved: SavedSetting)
      modifies this
      ensures !isLoaded ==> currency == old(currency) && stored == old(stored) && loading == old(loading)
      ensures isLoaded && signedIn ==> (currency, stored) == AfterUserLoad(old(currency), old(stored), saved)
      ensures isLoaded && !signedIn ==> currency == Resolve(old(currency), old(stored)) && stored == old(stored)
      ensures isLoaded ==> !loading
    {
      if isLoaded && signedIn {
        LoadUserCurrency(signedIn, saved);
      } else if isLoaded && !signedIn {
        currency := Resolve(currency, stored);
        loading := false;
      }
    }

    /** `setCurrency`: state and storage always follow the choice; the code
        to upsert into the user's settings is returned, and only for a
        signed-in user. */
    method SetCurrency(newCurrency: Currency, signedIn: bool) returns (upsert: Option<string>)
      modifies this
      ensures currency == newCurrency && stored == Some(newCurrency.code) && loading == old(loading)
      ensures upsert.Some? <==> signedIn
      ensures signedIn ==> upsert == Some(newCurrency.code)
    {
      currency := newCurrency;
      stored := Some(newCurrency.code);
      upsert := if signedIn then Some(newCurrency.code) else None;
    }
  }
}

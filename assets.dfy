/**
  Creating an asset (src/crud.py, `create_asset`): the ticker symbol is
  stripped and upper-cased, an empty result is refused, and a symbol the owner
  already holds (compared upper-cased) is refused.
 */
module Assets {
  import opened Wrappers
  import opened Text
  import opened Models

  datatype Asset = Asset(ownerId: int, symbol: string, name: string, assetType: AssetType)

  datatype AssetError = EmptySymbol | DuplicateSymbol(symbol: string)

  /** A symbol in the form the tracker stores: non-empty, upper-case, no surrounding white space. */
  predicate IsNormalSymbol(s: string) {
    s != [] && !IsSpace(s[0]) && !IsSpace(s[|s| - 1])
    && forall i :: 0 <= i < |s| ==> !('a' <= s[i] <= 'z')
  }

  /** `symbol.strip().upper()`, refused when nothing is left. */
  function NormalizeSymbol(symbol: string): (r: Result<string, AssetError>)
    ensures r.Err? <==> forall i :: 0 <= i < |symbol| ==> IsSpace(symbol[i])
    ensures r.Err? ==> r.error == EmptySymbol
    ensures r.Ok? ==> IsNormalSymbol(r.value) && |r.value| <= |symbol|
    ensures r.Ok? ==> r.value == Upper(Strip(symbol))
  {
    var s := Upper(Strip(symbol));
    StrippedUpper(symbol);
    if s == [] then Err(EmptySymbol) else Ok(s)
  }

  /** `symbol.strip().upper()` is empty exactly for all-white-space input, and otherwise a normal symbol. */
  lemma StrippedUpper(symbol: string)
    ensures var s := Upper(Strip(symbol));
      (s == [] <==> forall i :: 0 <= i < |symbol| ==> IsSpace(symbol[i]))
      && (s != [] ==> IsNormalSymbol(s)) && |s| <= |symbol|
  {
    var t := Strip(symbol);
    var s := Upper(t);
    if s != [] {
      assert s[0] == UpperChar(t[0]) && s[|s| - 1] == UpperChar(t[|t| - 1]);
    }
  }

  /** A normalised symbol normalises to itself. */
  lemma NormalizeSymbolIdempotent(symbol: string)
    requires NormalizeSymbol(symbol).Ok?
    ensures NormalizeSymbol(NormalizeSymbol(symbol).value) == NormalizeSymbol(symbol)
  {
    var s := NormalizeSymbol(symbol).value;
    NormalSymbolIsStripped(s);
    UpperIdempotent(Strip(symbol));
  }

  /** A normal symbol has no white space to strip. */
  lemma NormalSymbolIsStripped(s: string)
    requires IsNormalSymbol(s)
    ensures Strip(s) == s
  {
    StripOfStripped(s);
  }

  /** Case-insensitive (ASCII) lookup of the owner's asset with this symbol, as the database query does it. */
  predicate HasSymbol(existing: seq<Asset>, ownerId: int, symbol: string) {
    exists i :: 0 <= i < |existing| && existing[i].ownerId == ownerId && Upper(existing[i].symbol) == Upper(Strip(symbol))
  }

  /** The owner's assets are told apart by their upper-cased symbols. */
  predicate UniqueSymbols(existing: seq<Asset>) {
    forall i, j :: 0 <= i < j < |existing| && existing[i].ownerId == existing[j].ownerId
      ==> Upper(existing[i].symbol) != Upper(existing[j].symbol)
  }

  /**
    The asset `create_asset` stores, given the assets already stored: the
    symbol normalised, the name stripped; refused for an empty symbol or one
    the owner already has.
   */
  function CreateAsset(existing: seq<Asset>, ownerId: int, symbol: string, name: string, assetType: AssetType)
    : (r: Result<Asset, AssetError>)
    ensures r.Ok? <==> NormalizeSymbol(symbol).Ok? && !HasSymbol(existing, ownerId, symbol)
    ensures r.Ok? ==>
      r.value.symbol == NormalizeSymbol(symbol).value && IsNormalSymbol(r.value.symbol)
      && r.value.ownerId == ownerId && r.value.name == Strip(name) && r.value.assetType == assetType
    ensures r.Err? && NormalizeSymbol(symbol).Ok? ==> r.error == DuplicateSymbol(NormalizeSymbol(symbol).value)
    ensures NormalizeSymbol(symbol).Err? ==> r == Err(EmptySymbol)
  {
    match NormalizeSymbol(symbol)
    case Err(e) => Err(e)
    case Ok(symbolUpper) =>
      NormalizedSymbolQuery(symbol);
      if HasSymbol(existing, ownerId, symbolUpper) then Err(DuplicateSymbol(symbolUpper))
      else Ok(Asset(ownerId, symbolUpper, Strip(name), assetType))
  }

  /** Looking the normalised symbol up is the same as looking up the raw one. */
  lemma NormalizedSymbolQuery(symbol: string)
    requires NormalizeSymbol(symbol).Ok?
    ensures Upper(Strip(NormalizeSymbol(symbol).value)) == Upper(Strip(symbol))
  {
    var s := Upper(Strip(symbol));
    StripOfStripped(s);
    UpperIdempotent(Strip(symbol));
  }

  /** Adding the created asset keeps the owner's symbols unique. */
  lemma {:induction false} CreateAssetKeepsSymbolsUnique(existing: seq<Asset>, ownerId: int, symbol: string, name: string, assetType: AssetType)
    requires UniqueSymbols(existing)
    requires CreateAsset(existing, ownerId, symbol, name, assetType).Ok?
    ensures UniqueSymbols(existing + [CreateAsset(existing, ownerId, symbol, name, assetType).value])
  {
    var a := CreateAsset(existing, ownerId, symbol, name, assetType).value;
    forall i | 0 <= i < |existing| && existing[i].ownerId == a.ownerId
      ensures Upper(existing[i].symbol) != Upper(a.symbol)
    {
      CreatedSymbolIsNew(existing, ownerId, symbol, name, assetType, i);
    }
    AppendNewSymbol(existing, a);
  }

  /** An asset whose symbol its owner does not have yet keeps the symbols unique when added. */
  lemma AppendNewSymbol(existing: seq<Asset>, a: Asset)
    requires UniqueSymbols(existing)
    requires forall i :: 0 <= i < |existing| && existing[i].ownerId == a.ownerId ==> Upper(existing[i].symbol) != Upper(a.symbol)
    ensures UniqueSymbols(existing + [a])
  {
  }

  /** The created asset's symbol differs, upper-cased, from every symbol the owner already has. */
  lemma CreatedSymbolIsNew(existing: seq<Asset>, ownerId: int, symbol: string, name: string, assetType: AssetType, i: nat)
    requires CreateAsset(existing, ownerId, symbol, name, assetType).Ok?
    requires i < |existing| && existing[i].ownerId == ownerId
    ensures Upper(existing[i].symbol) != Upper(CreateAsset(existing, ownerId, symbol, name, assetType).value.symbol)
  {
    NormalizedSymbolQuery(symbol);
    UpperIdempotent(Strip(symbol));
    assert !(Upper(existing[i].symbol) == Upper(Strip(symbol)));
  }
}

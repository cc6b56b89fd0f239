/** The application object of app.js: the create form and its guards, the
    validation of a token before creation, the submit handler that drives
    the wallet manager's creation workflow, the dashboard counters, and the
    current section. DOM reads and writes become fields: the form's inputs,
    the predicted-address text and the dashboard counters. */
module App {
  import opened JsRuntime
  import opened TokenAddress
  import opened Web3

  /** The text of the create form's inputs: #tokenName, #tokenSymbol,
      #tokenSupply, #saltValue and #desiredPrefix. */
  datatype Form = Form(
    name: JsString,
    symbol: JsString,
    supply: JsString,
    salt: JsString,
    desiredPrefix: JsString)

  /** The form after `reset()`: every input back to its empty default. */
  const EmptyForm: Form := Form([], [], [], [], [])

  /** The token `handleCreateToken` builds from the form: the supply goes
      through `parseInt`. */
  function TokenDataOf(f: Form): (t: TokenData)
    ensures t.name == f.name && t.symbol == f.symbol && t.salt == f.salt
    ensures t.desiredPrefix == f.desiredPrefix
    ensures t.totalSupply == ParseInt(f.supply)
  {
    TokenData(f.name, f.symbol, ParseInt(f.supply), f.salt, f.desiredPrefix)
  }

  // ---------------------------------------------------------------------
  // Validation

  /** The check `validateTokenData` reports first. */
  datatype Reason = NameTooShort | SymbolLength | SupplyNotPositive | SaltMissing

  datatype Verdict = Accepted | Refused(reason: Reason)

  /** What a token must satisfy to be created: a name of at least three
      code units, a symbol of two to five, a parsed supply of at least
      one, and a salt. */
  predicate WellFormed(t: TokenData) {
    && |t.name| >= 3
    && 2 <= |t.symbol| <= 5
    && t.totalSupply.Some? && t.totalSupply.value >= 1
    && t.salt != []
  }

  /** `validateTokenData(tokenData)`: the checks run in the order name,
      symbol, supply, salt, and only the first failing one is reported.
      NaN (None) and 0 are falsy, so `!totalSupply` rejects both. */
  function ValidateTokenData(t: TokenData): (v: Verdict)
    ensures v == Accepted <==> WellFormed(t)
    ensures v == Refused(NameTooShort) <==> |t.name| < 3
    ensures v == Refused(SymbolLength) <==> |t.name| >= 3 && !(2 <= |t.symbol| <= 5)
    ensures v == Refused(SupplyNotPositive) <==>
      |t.name| >= 3 && 2 <= |t.symbol| <= 5 && !(t.totalSupply.Some? && t.totalSupply.value >= 1)
    ensures v == Refused(SaltMissing) <==>
      |t.name| >= 3 && 2 <= |t.symbol| <= 5 && t.totalSupply.Some? && t.totalSupply.value >= 1 && t.salt == []
  {
    if t.name == [] || |t.name| < 3 then Refused(NameTooShort)
    else if t.symbol == [] || |t.symbol| < 2 || |t.symbol| > 5 then Refused(SymbolLength)
    else if t.totalSupply.None? || t.totalSupply.value == 0 || t.totalSupply.value < 1 then Refused(SupplyNotPositive)
    else if t.salt == [] then Refused(SaltMissing)
    else Accepted
  }

  /** A form whose supply is written in decimal passes validation exactly
      when its name, symbol and salt do and the number is at least one. */
  lemma DecimalSupplyValidation(f: Form, n: nat)
    requires f.supply == Decimal(n)
    ensures ValidateTokenData(TokenDataOf(f)) == Accepted <==>
      |f.name| >= 3 && 2 <= |f.symbol| <= 5 && n >= 1 && f.salt != []
  {
    ParseIntOfDecimal(n);
  }

  /** A supply field without digits (empty, or text) parses to NaN and is
      refused when the name and symbol are fine. */
  lemma NonNumericSupplyRefused(f: Form)
    requires |f.name| >= 3 && 2 <= |f.symbol| <= 5
    requires ParseInt(f.supply) == None
    ensures ValidateTokenData(TokenDataOf(f)) == Refused(SupplyNotPositive)
  {
  }

  /** A validated form always derives from its own salt: the address
      `createToken` records is the one the preview shows for the same
      form. */
  lemma AcceptedFormKeepsItsSalt(
    f: Form, account: JsString, saltEntropy: seq<Nibble>, txEntropy: seq<Nibble>, createdAt: JsString)
    requires ValidateTokenData(TokenDataOf(f)) == Accepted
    requires |saltEntropy| == 64 && |txEntropy| == 64
    ensures
      var c := CreateTokenOutcome(true, Some(account), TokenDataOf(f), saltEntropy, true, txEntropy, createdAt, true);
      && c.record.Some?
      && c.record.value.salt == f.salt
      && c.record.value.address == DeriveAddress(f.name, f.symbol, f.salt)
      && c.record.value.creator == account
  {
  }

  // ---------------------------------------------------------------------
  // The dashboard

  /** The three counters `loadDashboardData` writes. */
  datatype Stats = Stats(totalTokens: nat, totalValue: nat, activeContracts: nat)

  /** `tokens.filter(t => t.address).length`. */
  function CountWithAddress(tokens: seq<TokenRecord>): (n: nat)
    ensures n <= |tokens|
    ensures n == |tokens| <==> forall i :: 0 <= i < |tokens| ==> tokens[i].address != []
  {
    if tokens == [] then 0
    else (if tokens[0].address != [] then 1 else 0) + CountWithAddress(tokens[1..])
  }

  /** The dashboard counters for a token list: how many, a placeholder
      value of 100 per token, and how many have an address. */
  function DashboardStats(tokens: seq<TokenRecord>): (s: Stats)
    ensures s.totalTokens == |tokens|
    ensures s.totalValue == 100 * s.totalTokens
    ensures s.activeContracts <= s.totalTokens
  {
    Stats(|tokens|, |tokens| * 100, CountWithAddress(tokens))
  }

  lemma {:induction false} CountWithAddressAppend(tokens: seq<TokenRecord>, r: TokenRecord)
    ensures CountWithAddress(tokens + [r]) == CountWithAddress(tokens) + (if r.address != [] then 1 else 0)
  {
    if tokens != [] {
      assert (tokens + [r])[1..] == tokens[1..] + [r];
      CountWithAddressAppend(tokens[1..], r);
    }
  }

  /** Every successful creation adds one token, 100 to the value and one
      active contract to the dashboard. */
  lemma StatsAfterCreation(
    storage: map<JsString, seq<TokenRecord>>, account: JsString, data: TokenData,
    saltEntropy: seq<Nibble>, txEntropy: seq<Nibble>, createdAt: JsString)
    requires |saltEntropy| == 64 && |txEntropy| == 64
    ensures
      var c := CreateTokenOutcome(true, Some(account), data, saltEntropy, true, txEntropy, createdAt, true);
      var before := DashboardStats(Tokens(storage));
      var after := DashboardStats(Tokens(Saved(storage, c.record.value)));
      && after.totalTokens == before.totalTokens + 1
      && after.totalValue == before.totalValue + 100
      && after.activeContracts == before.activeContracts + 1
  {
    var c := CreateTokenOutcome(true, Some(account), data, saltEntropy, true, txEntropy, createdAt, true);
    SavedAppends(storage, c.record.value);
    CountWithAddressAppend(Tokens(storage), c.record.value);
  }

  // ---------------------------------------------------------------------
  // What the submit handler reports

  /** How a submission ends: the wallet was not connected, validation
      refused the form, `createToken` returned null, or it created a
      token. */
  datatype Submission = NotConnected | Invalid(reason: Reason) | NoResult | Done(created: Created)

  const Home: JsString := Units("home")
  const Dashboard: JsString := Units("dashboard")

  class SCCafeApp {
    /** `window.web3Manager`. */
    const wallet: Web3Manager
    /** The ids present in the page: `getElementById` finds any element
        with the id, not only a section. */
    const sections: set<JsString>
    var currentSection: JsString
    var form: Form
    /** The text of #predictedAddress; None while nothing was derived. */
    var predictedAddress: Option<JsString>
    var stats: Stats

    ghost predicate Valid()
      reads this, wallet
    {
      wallet.Valid()
    }

    /** `new SCCafeApp()`: start on the home section, load the dashboard and
        generate an initial salt. */
    constructor (w: Web3Manager, pageSections: set<JsString>, initialForm: Form, saltEntropy: seq<Nibble>)
      requires w.Valid()
      requires |saltEntropy| == 64
      ensures Valid()
      ensures wallet == w && sections == pageSections && currentSection == Home
      ensures stats == DashboardStats(w.GetUserTokens())
      ensures form == initialForm.(salt := HexWord(saltEntropy))
      ensures predictedAddress ==
        (if initialForm.name != [] && initialForm.symbol != []
         then Some(DeriveAddress(initialForm.name, initialForm.symbol, HexWord(saltEntropy))) else None)
    {
      wallet := w;
      sections := pageSections;
      currentSection := Home;
      form := initialForm;
      predictedAddress := None;
      stats := DashboardStats(w.GetUserTokens());
      new;
      GenerateSalt(saltEntropy);
    }

    /** `showSection(sectionName)`: the current section changes only to a
        section that exists; the dashboard reloads its counters whenever it
        is the target. */
    method ShowSection(sectionName: JsString)
      modifies this`currentSection, this`stats
      ensures currentSection == if sectionName in sections then sectionName else old(currentSection)
      ensures stats == if sectionName == Dashboard then DashboardStats(wallet.GetUserTokens()) else old(stats)
    {
      if sectionName in sections {
        currentSection := sectionName;
      }
      if sectionName == Dashboard {
        LoadDashboardData();
      }
    }

    /** `loadDashboardData()`. */
    method LoadDashboardData()
      modifies this`stats
      ensures stats == DashboardStats(wallet.GetUserTokens())
    {
      var tokens := wallet.GetUserTokens();
      stats := DashboardStats(tokens);
    }

    /** `refreshTokens()`: reload the dashboard counters. */
    method RefreshTokens()
      modifies this`stats
      ensures stats == DashboardStats(wallet.GetUserTokens())
    {
      LoadDashboardData();
    }

    /** `updatePreview()`: derive only when salt, name and symbol are all
        present; the salt is then never generated, so the address is
        `DeriveAddress` of the form's own fields. */
    method UpdatePreview()
      modifies this`predictedAddress
      ensures predictedAddress ==
        if form.salt != [] && form.name != [] && form.symbol != []
        then Some(DeriveAddress(form.name, form.symbol, form.salt)) else old(predictedAddress)
    {
      var t := TokenDataOf(form);
      if t.salt != [] && t.name != [] && t.symbol != [] {
        predictedAddress := Some(DeriveAddress(t.name, t.symbol, t.salt));
      }
    }

    /** `validateForm()`: on input, refresh the preview when name, symbol
        and supply are filled in. */
    method ValidateForm()
      modifies this`predictedAddress
      ensures predictedAddress ==
        if form.name != [] && form.symbol != [] && form.supply != [] && form.salt != []
        then Some(DeriveAddress(form.name, form.symbol, form.salt)) else old(predictedAddress)
    {
      if form.name != [] && form.symbol != [] && form.supply != [] {
        UpdatePreview();
      }
    }

    /** `generateSalt()`: a fresh salt into the form, then the preview. */
    method GenerateSalt(saltEntropy: seq<Nibble>)
      requires |saltEntropy| == 64
      modifies this`form, this`predictedAddress
      ensures form == old(form).(salt := HexWord(saltEntropy))
      ensures predictedAddress ==
        if form.name != [] && form.symbol != []
        then Some(DeriveAddress(form.name, form.symbol, form.salt)) else old(predictedAddress)
    {
      form := form.(salt := HexWord(saltEntropy));
      UpdatePreview();
    }

    /** `calculateAddress()`: refuse unless name, symbol, supply and salt
        are all filled in; otherwise show the derived address. */
    method CalculateAddress() returns (ok: bool)
      modifies this`predictedAddress
      ensures ok <==> form.name != [] && form.symbol != [] && form.supply != [] && form.salt != []
      ensures predictedAddress ==
        if ok then Some(DeriveAddress(form.name, form.symbol, form.salt)) else old(predictedAddress)
    {
      if form.name == [] || form.symbol == [] || form.supply == [] || form.salt == [] {
        return false;
      }
      var t := TokenDataOf(form);
      predictedAddress := Some(ComputeTokenAddress(t, seq(64, _ => 0)));
      ok := true;
    }

    /** `handleCreateToken(e)`: refuse while disconnected, validate, call
        `createToken`, and on a result reset the form and generate a new
        salt. `saltEntropy` to `writable` are the inputs `createToken`
        consumes; `newSaltEntropy` feeds the salt drawn after success. */
    method HandleCreateToken(saltEntropy: seq<Nibble>, confirmed: bool, txEntropy: seq<Nibble>,
                             createdAt: JsString, writable: bool, newSaltEntropy: seq<Nibble>)
      returns (outcome: Submission)
      requires Valid()
      requires |saltEntropy| == 64 && |txEntropy| == 64 && |newSaltEntropy| == 64
      modifies this`form, this`predictedAddress, wallet`storage
      ensures Valid()
      ensures !wallet.isConnected ==>
        outcome == NotConnected && unchanged(this, wallet)
      ensures wallet.isConnected && ValidateTokenData(TokenDataOf(old(form))).Refused? ==>
        outcome == Invalid(ValidateTokenData(TokenDataOf(old(form))).reason) && unchanged(this, wallet)
      ensures wallet.isConnected && ValidateTokenData(TokenDataOf(old(form))) == Accepted ==>
        var c := CreateTokenOutcome(true, wallet.account, TokenDataOf(old(form)), saltEntropy,
                                    confirmed, txEntropy, createdAt, writable);
        && wallet.storage == (if c.record.Some? then Saved(old(wallet.storage), c.record.value) else old(wallet.storage))
        && outcome == (if c.result.Some? then Done(c.result.value) else NoResult)
        && form == (if c.result.Some? then EmptyForm.(salt := HexWord(newSaltEntropy)) else old(form))
        && predictedAddress == old(predictedAddress)
    {
      if !wallet.isConnected {
        return NotConnected;
      }
      var tokenData := TokenDataOf(form);
      var verdict := ValidateTokenData(tokenData);
      if verdict.Refused? {
        return Invalid(verdict.reason);
      }
      var result := wallet.CreateToken(tokenData, saltEntropy, confirmed, txEntropy, createdAt, writable);
      if result.Some? {
        form := EmptyForm;
        GenerateSalt(newSaltEntropy);
        outcome := Done(result.value);
      } else {
        outcome := NoResult;
      }
    }
  }
}

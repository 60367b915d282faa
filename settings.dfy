/**
 * Configuration (config/settings.py): the search criteria, the settings the
 * core reads from the environment with their defaults, and the validation
 * report.  The environment is an explicit map from variable names to values.
 */
module Settings {
  import opened Wrappers
  import opened Text

  datatype SearchCriteria = SearchCriteria(
    cities: seq<string>,
    maxPrice: int,
    minPrice: int,
    minRooms: int,
    maxRooms: int,
    propertyTypes: seq<string>,
    keywords: seq<string>,
    excludeKeywords: seq<string>)

  /** The settings of `Config` that the core reads. */
  datatype Config = Config(
    debug: bool,
    useProxy: bool,
    smtpUsername: string,
    smtpPassword: string,
    twilioAccountSid: string,
    twilioAuthToken: string,
    twilioPhoneNumber: string,
    maxContactAttempts: int,
    followUpDelayHours: int,
    enableScheduler: bool,
    scrapingSchedule: string,
    contactSchedule: string,
    followUpSchedule: string,
    criteria: SearchCriteria,
    enabledScrapers: map<string, bool>,
    addressThreshold: real,
    descriptionThreshold: real,
    priceThreshold: int)

  type Env = map<string, string>

  /** `os.getenv(key, default)`. */
  function Getenv(env: Env, key: string, default: string): string {
    if key in env then env[key] else default
  }

  /**
   * A boolean setting, `os.getenv(key, default).lower() == 'true'`, with the
   * default's truth value given directly (see `FlagReadsDefaultWord`).
   */
  predicate Flag(env: Env, key: string, default: bool) {
    if key in env then Lower(env[key]) == "true" else default
  }

  /** The default words of the source, "True" and "False", read as true and false. */
  lemma FlagReadsDefaultWord(env: Env, key: string)
    ensures Flag(env, key, true) == (Lower(Getenv(env, key, "True")) == "true")
    ensures Flag(env, key, false) == (Lower(Getenv(env, key, "False")) == "true")
  {
    assert Lower("True") == "true";
    assert Lower("False") != "true" by { assert Lower("False")[0] == 'f'; }
  }

  /** A set variable turns a flag on exactly when it spells "true" in some letter case. */
  lemma {:induction false} FlagIsCaseInsensitiveTrue(env: Env, key: string, default: bool)
    requires key in env
    ensures Flag(env, key, default) <==>
      |env[key]| == 4 && forall i :: 0 <= i < 4 ==> LowerChar(env[key][i]) == "true"[i]
  {
    var v := env[key];
    if |v| == 4 && forall i :: 0 <= i < 4 ==> LowerChar(v[i]) == "true"[i] {
      assert Lower(v) == "true";
    }
  }

  /** Examples of flag values: "TRUE" sets a flag, "1" and "yes" do not. */
  lemma FlagExamples()
    ensures Flag(map["DEBUG" := "TRUE"], "DEBUG", false)
    ensures !Flag(map["DEBUG" := "1"], "DEBUG", false)
    ensures !Flag(map["DEBUG" := "yes"], "DEBUG", true)
  {
    assert Lower("TRUE") == "true";
  }

  const DefaultCities: seq<string> := ["Paris", "Lyon", "Marseille", "Toulouse", "Nice"]
  const DefaultPropertyTypes: seq<string> := ["apartment", "studio"]
  const DefaultKeywords: seq<string> := ["balcon", "parking", "métro", "transport"]
  const DefaultExcludeKeywords: seq<string> := ["meublé", "furnished", "colocation"]

  /**
   * A list setting, `os.getenv(key, default).split(',')`, with the default
   * given as its fields (see `ListSettingReadsDefaultText`).
   */
  function ListSetting(env: Env, key: string, default: seq<string>): seq<string> {
    if key in env then SplitOn(env[key], ',') else default
  }

  /** A comma-free list of fields is what splitting its comma-joined text yields. */
  lemma ListSettingReadsDefaultText(env: Env, key: string, default: seq<string>)
    requires |default| >= 1
    requires forall i, j :: 0 <= i < |default| && 0 <= j < |default[i]| ==> default[i][j] != ','
    ensures ListSetting(env, key, default) == SplitOn(Getenv(env, key, Join(default, [','])), ',')
  {
    SplitOnJoin(default, ',');
  }

  /** The default lists are the source's default texts, split at commas. */
  lemma DefaultCitiesText()
    ensures Join(DefaultCities, [',']) == "Paris,Lyon,Marseille,Toulouse,Nice"
  {
  }

  lemma DefaultPropertyTypesText()
    ensures Join(DefaultPropertyTypes, [',']) == "apartment,studio"
  {
  }

  lemma DefaultKeywordsText()
    ensures Join(DefaultKeywords, [',']) == "balcon,parking,métro,transport"
  {
  }

  lemma DefaultExcludeKeywordsText()
    ensures Join(DefaultExcludeKeywords, [',']) == "meublé,furnished,colocation"
  {
  }

  /** `int(text)`: surrounding whitespace, an optional sign, then decimal digits. */
  function ParseInt(text: string): Option<int> {
    var t := Strip(text);
    if |t| > 0 && (t[0] == '-' || t[0] == '+') && AllDigits(t[1..]) then
      Some(if t[0] == '-' then -(DigitsValue(t[1..]) as int) else DigitsValue(t[1..]))
    else if AllDigits(t) then Some(DigitsValue(t))
    else None
  }

  /** `float(text)` for decimal notation: surrounding whitespace, an optional sign, digits with one optional dot. */
  function ParseFloat(text: string): Option<real> {
    var t := Strip(text);
    if |t| > 0 && t[0] == '-' then
      match ParseDecimal(t[1..])
      case Some(v) => Some(-v)
      case None => None
    else if |t| > 0 && t[0] == '+' then ParseDecimal(t[1..])
    else ParseDecimal(t)
  }

  /** The numeric settings, each read with `int(...)` or `float(...)`. */
  datatype Numbers = Numbers(
    maxContactAttempts: int,
    followUpDelayHours: int,
    maxPrice: int,
    minPrice: int,
    minRooms: int,
    maxRooms: int,
    addressThreshold: real,
    descriptionThreshold: real,
    priceThreshold: int)

  /**
   * `int(os.getenv(key, default))`: the default is a numeral, so an unset
   * variable yields the default's value (see `IntSettingReadsDefaultNumeral`).
   */
  function IntSetting(env: Env, key: string, default: int): Option<int> {
    if key in env then ParseInt(env[key]) else Some(default)
  }

  /** `float(os.getenv(key, default))`, read the same way. */
  function FloatSetting(env: Env, key: string, default: real): Option<real> {
    if key in env then ParseFloat(env[key]) else Some(default)
  }

  /**
   * The integer settings outside the core (scraping delays, concurrency, SMTP
   * port, log rotation): only whether they parse matters here.
   */
  predicate OtherIntegersParse(env: Env) {
    && IntSetting(env, "SCRAPING_DELAY_MIN", 2).Some?
    && IntSetting(env, "SCRAPING_DELAY_MAX", 5).Some?
    && IntSetting(env, "MAX_CONCURRENT_SCRAPERS", 3).Some?
    && IntSetting(env, "SMTP_PORT", 587).Some?
    && IntSetting(env, "LOG_MAX_SIZE", 10485760).Some?
    && IntSetting(env, "LOG_BACKUP_COUNT", 5).Some?
  }

  /** The numeric settings, or None when one of them does not parse (a ValueError at import). */
  function ReadNumbers(env: Env): Option<Numbers> {
    var maxAttempts := IntSetting(env, "MAX_CONTACT_ATTEMPTS", 3);
    var delayHours := IntSetting(env, "FOLLOW_UP_DELAY_HOURS", 24);
    var maxPrice := IntSetting(env, "MAX_PRICE", 1500);
    var minPrice := IntSetting(env, "MIN_PRICE", 500);
    var minRooms := IntSetting(env, "MIN_ROOMS", 1);
    var maxRooms := IntSetting(env, "MAX_ROOMS", 4);
    var addressThreshold := FloatSetting(env, "ADDRESS_SIMILARITY_THRESHOLD", 0.85);
    var descriptionThreshold := FloatSetting(env, "DESCRIPTION_SIMILARITY_THRESHOLD", 0.75);
    var priceThreshold := IntSetting(env, "PRICE_DIFFERENCE_THRESHOLD", 50);
    if maxAttempts.None? || delayHours.None? || maxPrice.None? || minPrice.None?
       || minRooms.None? || maxRooms.None? || addressThreshold.None?
       || descriptionThreshold.None? || priceThreshold.None? || !OtherIntegersParse(env)
    then None
    else Some(Numbers(
      maxAttempts.value, delayHours.value, maxPrice.value, minPrice.value, minRooms.value,
      maxRooms.value, addressThreshold.value, descriptionThreshold.value, priceThreshold.value))
  }

  /**
   * The class attributes of `Config`, evaluated once against the environment.
   * A numeric variable that does not parse makes the import fail (a ValueError),
   * which is the error result here.
   */
  function LoadConfig(env: Env): (r: Result<Config, string>)
    ensures r.Ok? <==> ReadNumbers(env).Some?
    ensures r.Ok? ==> r.value.criteria.cities != []
  {
    match ReadNumbers(env)
    case None => Err("ValueError")
    case Some(n) =>
      var criteria := SearchCriteria(
        ListSetting(env, "SEARCH_CITIES", DefaultCities),
        n.maxPrice,
        n.minPrice,
        n.minRooms,
        n.maxRooms,
        ListSetting(env, "PROPERTY_TYPES", DefaultPropertyTypes),
        ListSetting(env, "SEARCH_KEYWORDS", DefaultKeywords),
        ListSetting(env, "EXCLUDE_KEYWORDS", DefaultExcludeKeywords));
      Ok(Config(
        Flag(env, "DEBUG", false),
        Flag(env, "USE_PROXY", false),
        Getenv(env, "SMTP_USERNAME", ""),
        Getenv(env, "SMTP_PASSWORD", ""),
        Getenv(env, "TWILIO_ACCOUNT_SID", ""),
        Getenv(env, "TWILIO_AUTH_TOKEN", ""),
        Getenv(env, "TWILIO_PHONE_NUMBER", ""),
        n.maxContactAttempts,
        n.followUpDelayHours,
        Flag(env, "ENABLE_SCHEDULER", true),
        Getenv(env, "SCRAPING_SCHEDULE", "0 9,15,21 * * *"),
        Getenv(env, "CONTACT_SCHEDULE", "0 10,16 * * *"),
        Getenv(env, "FOLLOW_UP_SCHEDULE", "0 11,17 * * *"),
        criteria,
        map[
          "seloger" := Flag(env, "ENABLE_SELOGER", true),
          "leboncoin" := Flag(env, "ENABLE_LEBONCOIN", true),
          "pap" := Flag(env, "ENABLE_PAP", true),
          "logic_immo" := Flag(env, "ENABLE_LOGIC_IMMO", true),
          "bienici" := Flag(env, "ENABLE_BIENICI", true)],
        n.addressThreshold,
        n.descriptionThreshold,
        n.priceThreshold))
  }

  lemma ParseIntOfDigits(s: string, v: nat)
    requires AllDigits(s) && DigitsValue(s) == v
    ensures ParseInt(s) == Some(v)
  {
    assert s[0] != '-' && s[0] != '+';
  }

  lemma ParseFloatOfDecimal(s: string, v: real)
    requires |s| > 0 && IsDigit(s[0]) && ParseDecimal(s) == Some(v)
    ensures ParseFloat(s) == Some(v)
  {
    assert forall i :: 0 <= i < |s| ==> !IsSpace(s[i]);
    assert s[0] != '-' && s[0] != '+';
  }

  /** Reading an unset variable through its default numeral gives the default's value. */
  lemma IntSettingReadsDefaultNumeral(env: Env, key: string, default: nat)
    ensures IntSetting(env, key, default) == ParseInt(Getenv(env, key, NatToString(default)))
  {
    NatToStringRoundTrip(default);
    ParseIntOfDigits(NatToString(default), default);
  }

  /** The address threshold's default numeral "0.85" reads as 0.85. */
  lemma AddressThresholdNumeral(env: Env)
    ensures FloatSetting(env, "ADDRESS_SIMILARITY_THRESHOLD", 0.85)
         == ParseFloat(Getenv(env, "ADDRESS_SIMILARITY_THRESHOLD", "0.85"))
  {
    assert DigitsValue("85") == 85 by { assert "85"[..1] == "8"; }
    assert FirstIndexOf("0.85", '.') == 1;
    ParseFloatOfDecimal("0.85", 0.85);
  }

  /** The description threshold's default numeral "0.75" reads as 0.75. */
  lemma DescriptionThresholdNumeral(env: Env)
    ensures FloatSetting(env, "DESCRIPTION_SIMILARITY_THRESHOLD", 0.75)
         == ParseFloat(Getenv(env, "DESCRIPTION_SIMILARITY_THRESHOLD", "0.75"))
  {
    assert DigitsValue("75") == 75 by { assert "75"[..1] == "7"; }
    assert FirstIndexOf("0.75", '.') == 1;
    ParseFloatOfDecimal("0.75", 0.75);
  }

  /** With none of the variables set, the defaults apply. */
  lemma DefaultConfig(env: Env)
    requires env == map[]
    ensures LoadConfig(env).Ok?
    ensures var c := LoadConfig(env).value;
      && c.addressThreshold == 0.85 && c.descriptionThreshold == 0.75
      && c.priceThreshold == 50 && c.maxContactAttempts == 3 && c.followUpDelayHours == 24
      && c.criteria.maxPrice == 1500 && c.criteria.minPrice == 500
      && c.criteria.minRooms == 1 && c.criteria.maxRooms == 4
      && c.criteria.cities == DefaultCities && c.criteria.excludeKeywords == DefaultExcludeKeywords
      && c.criteria.propertyTypes == DefaultPropertyTypes && c.criteria.keywords == DefaultKeywords
      && c.smtpUsername == "" && c.smtpPassword == ""
      && c.twilioAccountSid == "" && c.twilioAuthToken == "" && c.twilioPhoneNumber == ""
      && c.scrapingSchedule == "0 9,15,21 * * *" && c.contactSchedule == "0 10,16 * * *"
      && c.followUpSchedule == "0 11,17 * * *"
      && !c.debug && !c.useProxy && c.enableScheduler
      && c.enabledScrapers == map["seloger" := true, "leboncoin" := true, "pap" := true,
                                  "logic_immo" := true, "bienici" := true]
  {
  }

  /** What `validate_config` returns. */
  datatype Validation = Validation(valid: bool, issues: seq<string>, warnings: seq<string>)

  const SmtpIssue := "SMTP credentials not configured"
  const CitiesIssue := "No cities specified in search criteria"
  const PriceIssue := "Invalid price range in search criteria"
  const TwilioWarning := "Twilio not configured - phone calling disabled"

  /** `Config.validate_config()`. */
  function ValidateConfig(cfg: Config): (v: Validation)
    ensures v.valid <==> v.issues == []
    ensures SmtpIssue in v.issues <==> cfg.smtpUsername == "" || cfg.smtpPassword == ""
    ensures CitiesIssue in v.issues <==> cfg.criteria.cities == []
    ensures PriceIssue in v.issues <==> cfg.criteria.maxPrice <= cfg.criteria.minPrice
    ensures forall m :: m in v.issues ==> m == SmtpIssue || m == CitiesIssue || m == PriceIssue
    ensures v.warnings == if cfg.twilioAccountSid == "" || cfg.twilioAuthToken == "" then [TwilioWarning] else []
  {
    var issues0: seq<string> := [];
    var warnings0: seq<string> := [];
    var issues1 := if cfg.smtpUsername == "" || cfg.smtpPassword == "" then issues0 + [SmtpIssue] else issues0;
    var warnings1 :=
      if cfg.twilioAccountSid == "" || cfg.twilioAuthToken == "" then warnings0 + [TwilioWarning] else warnings0;
    var issues2 := if cfg.criteria.cities == [] then issues1 + [CitiesIssue] else issues1;
    var issues3 := if cfg.criteria.maxPrice <= cfg.criteria.minPrice then issues2 + [PriceIssue] else issues2;
    Validation(|issues3| == 0, issues3, warnings1)
  }

  /** The Twilio credentials only ever produce a warning: validity and issues do not depend on them. */
  lemma TwilioNeverAffectsValidity(cfg: Config, sid: string, token: string)
    ensures var other := cfg.(twilioAccountSid := sid, twilioAuthToken := token);
      ValidateConfig(other).valid == ValidateConfig(cfg).valid
      && ValidateConfig(other).issues == ValidateConfig(cfg).issues
  {
  }

  /**
   * `str.split(',')` never returns an empty list, so a configuration read from
   * the environment never has the "no cities" issue, even when SEARCH_CITIES is empty.
   */
  lemma LoadedConfigNeverLacksCities(env: Env)
    requires LoadConfig(env).Ok?
    ensures CitiesIssue !in ValidateConfig(LoadConfig(env).value).issues
  {
  }
}

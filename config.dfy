/** The main configuration: validation, proxy address, account filters and
    lookups, and the load flow that publishes the global configuration
    (config/config.go). */
module Config {
  import opened Wrappers
  import opened Text
  import opened Accounts

  datatype ProxyConfig = ProxyConfig(isUse: bool, host: string, port: int)

  datatype BinanceConfig = BinanceConfig(futuresURL: string)

  /** The main file as decoded; accounts come from a separate file. */
  datatype ConfigFile = ConfigFile(proxy: ProxyConfig, binance: BinanceConfig, accountsConfig: string)

  datatype Config = Config(proxy: ProxyConfig, binance: BinanceConfig, accountsConfig: string, accounts: seq<Account>)
  {
    /** An empty futures URL is reported before a missing account; the
        configuration passes exactly when both are present. */
    function Validate(): (err: Option<string>)
      ensures err.None? <==> binance.futuresURL != "" && |accounts| > 0
      ensures binance.futuresURL == "" ==> err == Some("币安合约URL不能为空")
      ensures binance.futuresURL != "" && |accounts| == 0 ==> err == Some("至少需要配置一个账号")
    {
      if binance.futuresURL == "" then Some("币安合约URL不能为空")
      else if |accounts| == 0 then Some("至少需要配置一个账号")
      else None
    }

    /** The proxy address, `http://host:port`, or empty when the proxy is off. */
    function GetProxyURL(): (url: string)
      ensures !proxy.isUse ==> url == ""
      ensures proxy.isUse ==> url == "http://" + proxy.host + ":" + IntToDecimal(proxy.port)
    {
      if !proxy.isUse then "" else "http://" + proxy.host + ":" + IntToDecimal(proxy.port)
    }
  }

  /** The port in a proxy address reads back as the configured port. */
  lemma ProxyPortRoundTrip(c: Config)
    requires c.proxy.isUse
    ensures var url := c.GetProxyURL();
      var prefix := "http://" + c.proxy.host + ":";
      url[..|prefix|] == prefix && ParseDecimal(url[|prefix|..]) == Some(c.proxy.port)
  {
    var prefix := "http://" + c.proxy.host + ":";
    var url := c.GetProxyURL();
    assert url[|prefix|..] == IntToDecimal(c.proxy.port);
    IntToDecimalRoundTrip(c.proxy.port);
  }

  /** The enabled accounts, in configuration order. */
  function EnabledAccounts(accounts: seq<Account>): (r: seq<Account>)
    ensures |r| <= |accounts|
    ensures forall i :: 0 <= i < |r| ==> r[i].enabled
  {
    if |accounts| == 0 then []
    else EnabledAccounts(accounts[..|accounts| - 1]) + (if accounts[|accounts| - 1].enabled then [accounts[|accounts| - 1]] else [])
  }

  /** An account is listed exactly when it is configured and enabled. */
  lemma {:induction false} EnabledAccountsMembers(accounts: seq<Account>, a: Account)
    ensures a in EnabledAccounts(accounts) <==> a in accounts && a.enabled
  {
    if |accounts| > 0 {
      EnabledAccountsMembers(accounts[..|accounts| - 1], a);
      assert accounts == accounts[..|accounts| - 1] + [accounts[|accounts| - 1]];
    }
  }

  /** The filter loop of `GetEnabledAccounts`. */
  method GetEnabledAccounts(c: Config) returns (enabled: seq<Account>)
    ensures enabled == EnabledAccounts(c.accounts)
  {
    enabled := [];
    for i := 0 to |c.accounts|
      invariant enabled == EnabledAccounts(c.accounts[..i])
    {
      assert c.accounts[..i + 1][..i] == c.accounts[..i];
      if c.accounts[i].enabled {
        enabled := enabled + [c.accounts[i]];
      }
    }
    assert c.accounts[..|c.accounts|] == c.accounts;
  }

  /** The first account with the given ID, or none. */
  method GetAccountByID(c: Config, id: string) returns (r: Option<Account>)
    ensures r.None? <==> forall i :: 0 <= i < |c.accounts| ==> c.accounts[i].id != id
    ensures r.Some? ==> exists i :: 0 <= i < |c.accounts| && c.accounts[i] == r.value && r.value.id == id &&
                                    forall j :: 0 <= j < i ==> c.accounts[j].id != id
  {
    for i := 0 to |c.accounts|
      invariant forall j :: 0 <= j < i ==> c.accounts[j].id != id
    {
      if c.accounts[i].id == id {
        return Some(c.accounts[i]);
      }
    }
    return None;
  }

  /** The load flow: a read or decoding error of the main file under its
      prefix; the accounts file is loaded only when one is named, and its
      error, then a validation error under its own prefix, stop the load;
      otherwise the parsed file with the loaded accounts is the result. */
  function LoadConfig(decoded: FileContents<ConfigFile>, accountsFile: FileContents<seq<Account>>): (r: Result<Config>)
    ensures decoded.ReadFailed? ==> r == Err("读取配置文件失败: " + decoded.msg)
    ensures decoded.ParseFailed? ==> r == Err("解析配置文件失败: " + decoded.msg)
    ensures decoded.Parsed? && decoded.value.accountsConfig != "" && LoadAccounts(accountsFile).Err? ==>
      r == Err("加载账号配置失败: " + LoadAccounts(accountsFile).msg)
    ensures r.Ok? ==>
      (r.value.Validate().None? && decoded.Parsed? && decoded.value.accountsConfig != "" &&
       LoadAccounts(accountsFile).Ok? &&
       r.value == Config(decoded.value.proxy, decoded.value.binance, decoded.value.accountsConfig,
                         LoadAccounts(accountsFile).value))
    ensures decoded.Parsed? && decoded.value.accountsConfig != "" && LoadAccounts(accountsFile).Ok? ==>
      var c := Config(decoded.value.proxy, decoded.value.binance, decoded.value.accountsConfig,
                      LoadAccounts(accountsFile).value);
      (c.Validate().None? ==> r == Ok(c)) &&
      (c.Validate().Some? ==> r == Err("配置验证失败: " + c.Validate().value))
    ensures decoded.Parsed? && decoded.value.accountsConfig == "" ==>
      var c := Config(decoded.value.proxy, decoded.value.binance, "", []);
      c.Validate().Some? && r == Err("配置验证失败: " + c.Validate().value)
  {
    match decoded
    case ReadFailed(m) => Err("读取配置文件失败: " + m)
    case ParseFailed(m) => Err("解析配置文件失败: " + m)
    case Parsed(f) =>
      var accounts := if f.accountsConfig != "" then LoadAccounts(accountsFile) else Ok([]);
      if accounts.Err? then Err("加载账号配置失败: " + accounts.msg)
      else
        var cfg := Config(f.proxy, f.binance, f.accountsConfig, accounts.value);
        match cfg.Validate()
        case Some(msg) => Err("配置验证失败: " + msg)
        case None => Ok(cfg)
  }

  /** Every account of a loaded configuration is valid. */
  lemma LoadedAccountsValid(decoded: FileContents<ConfigFile>, accountsFile: FileContents<seq<Account>>)
    requires LoadConfig(decoded, accountsFile).Ok?
    ensures forall a :: a in LoadConfig(decoded, accountsFile).value.accounts ==> a.IsValid()
  {
  }

  /** The package-level configuration. */
  class ConfigStore {
    var globalConfig: Option<Config>

    constructor()
      ensures globalConfig.None?
    {
      globalConfig := None;
    }

    /** Loads the configuration and publishes it only when loading succeeds. */
    method Load(decoded: FileContents<ConfigFile>, accountsFile: FileContents<seq<Account>>) returns (r: Result<Config>)
      modifies this
      ensures r == LoadConfig(decoded, accountsFile)
      ensures r.Ok? ==> globalConfig == Some(r.value)
      ensures r.Err? ==> globalConfig == old(globalConfig)
    {
      r := LoadConfig(decoded, accountsFile);
      if r.Ok? {
        globalConfig := Some(r.value);
      }
    }

    /** The published configuration, if any. */
    method Get() returns (c: Option<Config>)
      ensures c == globalConfig
    {
      return globalConfig;
    }
  }
}

/** Trading accounts: their validation, display names and the validation
    pass over an accounts file (config/accounts.go). */
module Accounts {
  import opened Wrappers
  import opened Text

  datatype Account = Account(
    id: string, name: string, strategy: string, promptType: string,
    apiKey: string, apiSecret: string, enabled: bool)
  {
    /** All six conditions an account must meet. */
    predicate IsValid()
    {
      id != "" && name != "" && strategy in {"short_term", "long_term"} &&
      promptType in {"minimal", "detailed"} && apiKey != "" && apiSecret != ""
    }

    /** The first violated condition, checked in the order ID, name, strategy,
        prompt type, API key, API secret; none for a valid account. */
    function Validate(): (err: Option<string>)
      ensures err.None? <==> IsValid()
      ensures id == "" ==> err == Some("账号ID不能为空")
      ensures id != "" && name == "" ==> err == Some("账号名称不能为空")
      ensures id != "" && name != "" && strategy !in {"short_term", "long_term"} ==>
        err == Some("策略类型无效: " + strategy + " (必须是 short_term 或 long_term)")
      ensures id != "" && name != "" && strategy in {"short_term", "long_term"} && promptType !in {"minimal", "detailed"} ==>
        err == Some("提示词类型无效: " + promptType + " (必须是 minimal 或 detailed)")
      ensures (id != "" && name != "" && strategy in {"short_term", "long_term"} &&
               promptType in {"minimal", "detailed"} && apiKey == "") ==> err == Some("API Key不能为空")
      ensures (id != "" && name != "" && strategy in {"short_term", "long_term"} &&
               promptType in {"minimal", "detailed"} && apiKey != "" && apiSecret == "") ==> err == Some("API Secret不能为空")
    {
      if id == "" then Some("账号ID不能为空")
      else if name == "" then Some("账号名称不能为空")
      else if strategy != "short_term" && strategy != "long_term" then
        Some("策略类型无效: " + strategy + " (必须是 short_term 或 long_term)")
      else if promptType != "minimal" && promptType != "detailed" then
        Some("提示词类型无效: " + promptType + " (必须是 minimal 或 detailed)")
      else if apiKey == "" then Some("API Key不能为空")
      else if apiSecret == "" then Some("API Secret不能为空")
      else None
    }

    /** The strategy's display name. */
    function GetStrategyName(): (r: string)
      ensures strategy == "short_term" ==> r == "短线"
      ensures strategy == "long_term" ==> r == "中长线"
      ensures strategy !in {"short_term", "long_term"} ==> r == "未知"
    {
      match strategy
      case "short_term" => "短线"
      case "long_term" => "中长线"
      case _ => "未知"
    }

    /** The prompt type's display name. */
    function GetPromptTypeName(): (r: string)
      ensures promptType == "minimal" ==> r == "简洁版"
      ensures promptType == "detailed" ==> r == "详细版"
      ensures promptType !in {"minimal", "detailed"} ==> r == "未知"
    {
      match promptType
      case "minimal" => "简洁版"
      case "detailed" => "详细版"
      case _ => "未知"
    }

    /** The prompt type's description. */
    function GetPromptTypeDescription(): (r: string)
      ensures promptType == "minimal" ==> r == "只提供数据和输出格式，让AI自主判断"
      ensures promptType == "detailed" ==> r == "明确写明进场出场条件和交易逻辑"
      ensures promptType !in {"minimal", "detailed"} ==> r == "未知类型"
    {
      match promptType
      case "minimal" => "只提供数据和输出格式，让AI自主判断"
      case "detailed" => "明确写明进场出场条件和交易逻辑"
      case _ => "未知类型"
    }
  }

  /** A valid account always has a known strategy and prompt type, so none of
      its display names falls back to the unknown default. */
  lemma ValidAccountHasKnownNames(a: Account)
    requires a.Validate().None?
    ensures a.GetStrategyName() in {"短线", "中长线"}
    ensures a.GetPromptTypeName() in {"简洁版", "详细版"}
    ensures a.GetPromptTypeDescription() != "未知类型"
  {
  }

  /** The index and error of the first invalid account, if any. */
  function FirstInvalid(accounts: seq<Account>): (r: Option<(nat, string)>)
    ensures r.None? <==> forall i :: 0 <= i < |accounts| ==> accounts[i].IsValid()
    ensures r.Some? ==>
      var (i, msg) := r.value;
      i < |accounts| && accounts[i].Validate() == Some(msg) &&
      forall j :: 0 <= j < i ==> accounts[j].IsValid()
  {
    if |accounts| == 0 then None
    else match accounts[0].Validate()
      case Some(msg) => Some((0, msg))
      case None =>
        match FirstInvalid(accounts[1..])
        case None => None
        case Some((i, msg)) => Some((i + 1, msg))
  }

  /** `LoadAccounts` over the file as read and decoded: the read or decoding
      error under its prefix, an error naming the first invalid account's
      index, or the accounts unchanged. */
  function LoadAccounts(file: FileContents<seq<Account>>): (r: Result<seq<Account>>)
    ensures file.ReadFailed? ==> r == Err("读取账号配置文件失败: " + file.msg)
    ensures file.ParseFailed? ==> r == Err("解析账号配置文件失败: " + file.msg)
    ensures file.Parsed? && r.Ok? ==> r.value == file.value && forall i :: 0 <= i < |file.value| ==> file.value[i].IsValid()
    ensures file.Parsed? && r.Err? ==>
      exists i :: (0 <= i < |file.value| && !file.value[i].IsValid() &&
                   (forall j :: 0 <= j < i ==> file.value[j].IsValid()) &&
                   r.msg == "账号[" + IntToDecimal(i) + "]配置无效: " + file.value[i].Validate().value)
  {
    match file
    case ReadFailed(m) => Err("读取账号配置文件失败: " + m)
    case ParseFailed(m) => Err("解析账号配置文件失败: " + m)
    case Parsed(accounts) =>
      match FirstInvalid(accounts)
      case None => Ok(accounts)
      case Some((i, msg)) => Err("账号[" + IntToDecimal(i) + "]配置无效: " + msg)
  }
}

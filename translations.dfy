/** The translation manager of translations.js: three string tables keyed
    by message id, a lookup with a fallback chain, the language choice kept
    in local storage under "language", and the page title per language.
    The page's `[data-translate]` elements are given by their keys; what is
    written into them is the `texts` field. */
module Translations {
  import opened JsRuntime

  /** The Portuguese table (the default language), as the union of its sections. */
  const Pt: map<string, string> :=
    PtNavigation + PtHero + PtFeatures + PtDashboard + PtCreateToken + PtAdmin + PtMessages

  const PtNavigation: map<string, string> := map[
    "connect_wallet" := "Conectar Carteira"
  ]

  const PtHero: map<string, string> := map[
    "hero_title" := "Crie Tokens com Endereços",
    "hero_subtitle" := "Use a tecnologia CREATE2 para gerar contratos inteligentes com endereços previsíveis e seguros",
    "create_token" := "Criar Token",
    "view_dashboard" := "Ver Dashboard"
  ]

  const PtFeatures: map<string, string> := map[
    "security_title" := "Segurança Máxima",
    "security_desc" := "Contratos auditados e tecnologia CREATE2 comprovada",
    "speed_title" := "Deployment Rápido",
    "speed_desc" := "Crie e implemente tokens em segundos",
    "custom_title" := "Totalmente Customizável",
    "custom_desc" := "Defina nome, símbolo, supply e endereço desejado"
  ]

  const PtDashboard: map<string, string> := map[
    "dashboard_title" := "Dashboard",
    "dashboard_subtitle" := "Visualize e gerencie seus tokens criados",
    "total_tokens" := "Tokens Criados",
    "total_value" := "Valor Total",
    "active_contracts" := "Contratos Ativos",
    "my_tokens" := "Meus Tokens"
  ]

  const PtCreateToken: map<string, string> := map[
    "create_token_title" := "Criar Novo Token",
    "create_token_subtitle" := "Configure seu token personalizado com endereço determinístico",
    "token_name" := "Nome do Token:",
    "token_symbol" := "Símbolo:",
    "token_supply" := "Supply Total:",
    "desired_prefix" := "Prefixo Desejado (opcional):",
    "prefix_help" := "Deixe vazio para gerar automaticamente",
    "salt_value" := "Salt (Valor único):",
    "generate" := "Gerar",
    "preview" := "Prévia:",
    "predicted_address" := "Endereço Previsto:",
    "gas_estimate" := "Gas Estimado:",
    "calculate_address" := "Calcular Endereço",
    "create_deploy" := "Criar & Deploy"
  ]

  const PtAdmin: map<string, string> := map[
    "admin_panel" := "Painel Administrativo",
    "admin_subtitle" := "Gerenciar sistema e usuários",
    "system_stats" := "Estatísticas do Sistema",
    "total_users" := "Total de Usuários:",
    "total_deployments" := "Total de Deployments:",
    "recent_activity" := "Atividade Recente"
  ]

  const PtMessages: map<string, string> := map[
    "wallet_connected" := "Carteira conectada com sucesso!",
    "wallet_disconnected" := "Carteira desconectada",
    "wallet_not_found" := "MetaMask não encontrado. Por favor, instale a extensão.",
    "wrong_network" := "Rede incorreta. Conecte-se à BSC Testnet.",
    "transaction_pending" := "Transação pendente...",
    "transaction_confirmed" := "Transação confirmada!",
    "transaction_failed" := "Transação falhou",
    "copied_to_clipboard" := "Copiado para a área de transferência!",
    "salt_generated" := "Salt gerado com sucesso",
    "address_calculated" := "Endereço calculado"
  ]

  /** The English table, as the union of its sections. */
  const En: map<string, string> :=
    EnNavigation + EnHero + EnFeatures + EnDashboard + EnCreateToken + EnAdmin + EnMessages

  const EnNavigation: map<string, string> := map[
    "connect_wallet" := "Connect Wallet"
  ]

  const EnHero: map<string, string> := map[
    "hero_title" := "Create Tokens with",
    "hero_subtitle" := "Use CREATE2 technology to generate smart contracts with predictable and secure addresses",
    "create_token" := "Create Token",
    "view_dashboard" := "View Dashboard"
  ]

  const EnFeatures: map<string, string> := map[
    "security_title" := "Maximum Security",
    "security_desc" := "Audited contracts and proven CREATE2 technology",
    "speed_title" := "Fast Deployment",
    "speed_desc" := "Create and deploy tokens in seconds",
    "custom_title" := "Fully Customizable",
    "custom_desc" := "Define name, symbol, supply and desired address"
  ]

  const EnDashboard: map<string, string> := map[
    "dashboard_title" := "Dashboard",
    "dashboard_subtitle" := "View and manage your created tokens",
    "total_tokens" := "Tokens Created",
    "total_value" := "Total Value",
    "active_contracts" := "Active Contracts",
    "my_tokens" := "My Tokens"
  ]

  const EnCreateToken: map<string, string> := map[
    "create_token_title" := "Create New Token",
    "create_token_subtitle" := "Configure your custom token with deterministic address",
    "token_name" := "Token Name:",
    "token_symbol" := "Symbol:",
    "token_supply" := "Total Supply:",
    "desired_prefix" := "Desired Prefix (optional):",
    "prefix_help" := "Leave empty to generate automatically",
    "salt_value" := "Salt (Unique value):",
    "generate" := "Generate",
    "preview" := "Preview:",
    "predicted_address" := "Predicted Address:",
    "gas_estimate" := "Gas Estimate:",
    "calculate_address" := "Calculate Address",
    "create_deploy" := "Create & Deploy"
  ]

  const EnAdmin: map<string, string> := map[
    "admin_panel" := "Admin Panel",
    "admin_subtitle" := "Manage system and users",
    "system_stats" := "System Statistics",
    "total_users" := "Total Users:",
    "total_deployments" := "Total Deployments:",
    "recent_activity" := "Recent Activity"
  ]

  const EnMessages: map<string, string> := map[
    "wallet_connected" := "Wallet connected successfully!",
    "wallet_disconnected" := "Wallet disconnected",
    "wallet_not_found" := "MetaMask not found. Please install the extension.",
    "wrong_network" := "Wrong network. Please connect to BSC Testnet.",
    "transaction_pending" := "Transaction pending...",
    "transaction_confirmed" := "Transaction confirmed!",
    "transaction_failed" := "Transaction failed",
    "copied_to_clipboard" := "Copied to clipboard!",
    "salt_generated" := "Salt generated successfully",
    "address_calculated" := "Address calculated"
  ]

  /** The Chinese table, as the union of its sections. */
  const Zh: map<string, string> :=
    ZhNavigation + ZhHero + ZhFeatures + ZhDashboard + ZhCreateToken + ZhAdmin + ZhMessages

  const ZhNavigation: map<string, string> := map[
    "connect_wallet" := "连接钱包"
  ]

  const ZhHero: map<string, string> := map[
    "hero_title" := "创建带有",
    "hero_subtitle" := "使用 CREATE2 技术生成具有可预测和安全地址的智能合约",
    "create_token" := "创建代币",
    "view_dashboard" := "查看仪表板"
  ]

  const ZhFeatures: map<string, string> := map[
    "security_title" := "最高安全性",
    "security_desc" := "经过审计的合约和经过验证的 CREATE2 技术",
    "speed_title" := "快速部署",
    "speed_desc" := "在几秒钟内创建和部署代币",
    "custom_title" := "完全可定制",
    "custom_desc" := "定义名称、符号、供应量和所需地址"
  ]

  const ZhDashboard: map<string, string> := map[
    "dashboard_title" := "仪表板",
    "dashboard_subtitle" := "查看和管理您创建的代币",
    "total_tokens" := "已创建代币",
    "total_value" := "总价值",
    "active_contracts" := "活跃合约",
    "my_tokens" := "我的代币"
  ]

  const ZhCreateToken: map<string, string> := map[
    "create_token_title" := "创建新代币",
    "create_token_subtitle" := "配置具有确定性地址的自定义代币",
    "token_name" := "代币名称：",
    "token_symbol" := "符号：",
    "token_supply" := "总供应量：",
    "desired_prefix" := "所需前缀（可选）：",
    "prefix_help" := "留空以自动生成",
    "salt_value" := "Salt（唯一值）：",
    "generate" := "生成",
    "preview" := "预览：",
    "predicted_address" := "预测地址：",
    "gas_estimate" := "Gas 估算：",
    "calculate_address" := "计算地址",
    "create_deploy" := "创建并部署"
  ]

  const ZhAdmin: map<string, string> := map[
    "admin_panel" := "管理面板",
    "admin_subtitle" := "管理系统和用户",
    "system_stats" := "系统统计",
    "total_users" := "总用户数：",
    "total_deployments" := "总部署数：",
    "recent_activity" := "最近活动"
  ]

  const ZhMessages: map<string, string> := map[
    "wallet_connected" := "钱包连接成功！",
    "wallet_disconnected" := "钱包已断开连接",
    "wallet_not_found" := "未找到 MetaMask。请安装扩展。",
    "wrong_network" := "网络错误。请连接到 BSC 测试网。",
    "transaction_pending" := "交易待处理...",
    "transaction_confirmed" := "交易已确认！",
    "transaction_failed" := "交易失败",
    "copied_to_clipboard" := "已复制到剪贴板！",
    "salt_generated" := "Salt 生成成功",
    "address_calculated" := "地址已计算"
  ]

  /** The languages `changeLanguage` accepts: the own keys of
      `this.translations`. */
  const Languages: set<string> := {"pt", "en", "zh"}

  lemma NavigationSection()
    ensures PtNavigation.Keys == EnNavigation.Keys == ZhNavigation.Keys
    ensures "language_changed" !in PtNavigation
    ensures "language_changed" !in EnNavigation
    ensures "language_changed" !in ZhNavigation
  {
  }

  lemma HeroSection()
    ensures PtHero.Keys == EnHero.Keys == ZhHero.Keys
    ensures "language_changed" !in PtHero
    ensures "language_changed" !in EnHero
    ensures "language_changed" !in ZhHero
  {
  }

  lemma FeaturesSection()
    ensures PtFeatures.Keys == EnFeatures.Keys == ZhFeatures.Keys
    ensures "language_changed" !in PtFeatures
    ensures "language_changed" !in EnFeatures
    ensures "language_changed" !in ZhFeatures
  {
  }

  lemma DashboardSection()
    ensures PtDashboard.Keys == EnDashboard.Keys == ZhDashboard.Keys
    ensures "language_changed" !in PtDashboard
    ensures "language_changed" !in EnDashboard
    ensures "language_changed" !in ZhDashboard
  {
  }

  lemma CreateTokenSection()
    ensures PtCreateToken.Keys == EnCreateToken.Keys == ZhCreateToken.Keys
    ensures "language_changed" !in PtCreateToken
    ensures "language_changed" !in EnCreateToken
    ensures "language_changed" !in ZhCreateToken
  {
  }

  lemma AdminSection()
    ensures PtAdmin.Keys == EnAdmin.Keys == ZhAdmin.Keys
    ensures "language_changed" !in PtAdmin
    ensures "language_changed" !in EnAdmin
    ensures "language_changed" !in ZhAdmin
  {
  }

  lemma MessagesSection()
    ensures PtMessages.Keys == EnMessages.Keys == ZhMessages.Keys
    ensures "language_changed" !in PtMessages
    ensures "language_changed" !in EnMessages
    ensures "language_changed" !in ZhMessages
  {
  }

  lemma PtKeys()
    ensures Pt.Keys == PtNavigation.Keys + PtHero.Keys + PtFeatures.Keys + PtDashboard.Keys + PtCreateToken.Keys + PtAdmin.Keys + PtMessages.Keys
  {
  }

  lemma EnKeys()
    ensures En.Keys == EnNavigation.Keys + EnHero.Keys + EnFeatures.Keys + EnDashboard.Keys + EnCreateToken.Keys + EnAdmin.Keys + EnMessages.Keys
  {
  }

  lemma ZhKeys()
    ensures Zh.Keys == ZhNavigation.Keys + ZhHero.Keys + ZhFeatures.Keys + ZhDashboard.Keys + ZhCreateToken.Keys + ZhAdmin.Keys + ZhMessages.Keys
  {
  }

  /** The three tables translate the same message ids. */
  lemma SameKeys()
    ensures Pt.Keys == En.Keys && En.Keys == Zh.Keys
  {
    NavigationSection();
    HeroSection();
    FeaturesSection();
    DashboardSection();
    CreateTokenSection();
    AdminSection();
    MessagesSection();
    PtKeys();
    EnKeys();
    ZhKeys();
  }

  /** No table has an entry for the id `changeLanguage` asks for. */
  lemma LanguageChangedMissing()
    ensures LanguageChangedToast !in Pt
  {
    NavigationSection();
    HeroSection();
    FeaturesSection();
    DashboardSection();
    CreateTokenSection();
    AdminSection();
    MessagesSection();
    PtKeys();
  }

  /** `translation || fallback || key`: the first candidate that is a
      non-empty string; a `null` fallback is None. */
  function Lookup(table: map<string, string>, key: string, fallback: Option<string>): (r: string)
    ensures r == "" <==>
      && key == ""
      && (key !in table || table[key] == "")
      && (fallback.None? || fallback.value == "")
    ensures key in table && table[key] != "" ==> r == table[key]
    ensures (key !in table || table[key] == "") && fallback.Some? && fallback.value != "" ==> r == fallback.value
    ensures (key !in table || table[key] == "") && (fallback.None? || fallback.value == "") ==> r == key
  {
    if key in table && table[key] != "" then table[key]
    else if fallback.Some? && fallback.value != "" then fallback.value
    else key
  }

  const EnTitle: string := "SCCafé - Smart Contract Factory"
  const ZhTitle: string := "SCCafé - 智能合约工厂"
  const PtTitle: string := "SCCafé - Fábrica de Contratos Inteligentes"

  /** The title `applyTranslations` writes: English and Chinese by name,
      Portuguese for every other value of the current language. */
  function PageTitle(lang: string): (t: string)
    ensures t == EnTitle <==> lang == "en"
    ensures t == ZhTitle <==> lang == "zh"
    ensures t == PtTitle <==> lang != "en" && lang != "zh"
  {
    if lang == "en" then EnTitle
    else if lang == "zh" then ZhTitle
    else PtTitle
  }

  /** The id `changeLanguage` translates for its toast. */
  const LanguageChangedToast: string := "language_changed"

  /** The language the constructor starts with: the stored one, or "pt"
      when it is unset or empty. */
  function InitialLanguage(stored: Option<string>): (lang: string)
    ensures lang != ""
    ensures stored.Some? && stored.value != "" ==> lang == stored.value
    ensures stored.None? || stored.value == "" ==> lang == "pt"
  {
    if stored.Some? && stored.value != "" then stored.value else "pt"
  }

  class TranslationManager {
    /** The keys of the page's `[data-translate]` elements, in document
        order. */
    const elementKeys: seq<string>
    /** `this.translations.pt`, `.en` and `.zh`. */
    const pt: map<string, string>
    const en: map<string, string>
    const zh: map<string, string>
    var currentLanguage: string
    /** localStorage's "language" entry; None when unset. */
    var storedLanguage: Option<string>
    var title: string
    /** The text written into each `[data-translate]` element. */
    var texts: seq<string>

    /** What the tables guarantee: the same message ids in every language,
        none of them the id `changeLanguage` translates. */
    ghost predicate Valid() {
      && pt.Keys == en.Keys == zh.Keys
      && LanguageChangedToast !in pt
    }

    /** `this.translations[lang]` for a language that has a table. */
    function TableOf(lang: string): map<string, string>
      requires lang in Languages
    {
      if lang == "pt" then pt else if lang == "en" then en else zh
    }

    predicate Supported()
      reads this`currentLanguage
    {
      currentLanguage in Languages
    }

    /** `translate(key, fallback)`. The lookup
        `this.translations[this.currentLanguage]` throws when the language
        has no table, hence the precondition. */
    function Translate(key: string, fallback: Option<string>): (r: string)
      reads this`currentLanguage
      requires Supported()
      ensures r == key || (fallback.Some? && r == fallback.value)
              || (key in TableOf(currentLanguage) && r == TableOf(currentLanguage)[key])
      ensures key != "" ==> r != ""
    {
      Lookup(TableOf(currentLanguage), key, fallback)
    }

    /** `new TranslationManager()` up to its closing `this.init()`: the
        three tables, and the stored language or "pt" when it is unset or
        empty, read without a check. */
    constructor (keys: seq<string>, stored: Option<string>)
      ensures Valid()
      ensures pt == Pt && en == En && zh == Zh
      ensures elementKeys == keys && storedLanguage == stored
      ensures currentLanguage == InitialLanguage(stored)
      ensures title == PtTitle && texts == []
    {
      elementKeys := keys;
      pt := Pt;
      en := En;
      zh := Zh;
      storedLanguage := stored;
      currentLanguage := InitialLanguage(stored);
      title := PtTitle;
      texts := [];
      new;
      SameKeys();
      LanguageChangedMissing();
    }

    /** `init()`, which the constructor ends with: translate the page in
        the current language. Its element walk throws on a language without
        a table unless the page has no translated element. */
    method Init()
      requires elementKeys != [] ==> Supported()
      modifies this`texts, this`title
      ensures title == PageTitle(currentLanguage)
      ensures |texts| == |elementKeys|
      ensures forall i :: 0 <= i < |elementKeys| ==> Supported() && texts[i] == Translate(elementKeys[i], None)
    {
      ApplyTranslations();
    }

    /** `applyTranslations()`: every translated element gets the lookup of
        its key, then the title follows the current language. */
    method ApplyTranslations()
      requires elementKeys != [] ==> Supported()
      modifies this`texts, this`title
      ensures title == PageTitle(currentLanguage)
      ensures |texts| == |elementKeys|
      ensures forall i :: 0 <= i < |elementKeys| ==> Supported() && texts[i] == Translate(elementKeys[i], None)
    {
      var i := 0;
      var written: seq<string> := [];
      while i < |elementKeys|
        invariant 0 <= i <= |elementKeys|
        invariant |written| == i
        invariant forall j :: 0 <= j < i ==> Supported() && written[j] == Translate(elementKeys[j], None)
      {
        written := written + [Translate(elementKeys[i], None)];
        i := i + 1;
      }
      texts := written;
      if currentLanguage == "en" {
        title := EnTitle;
      } else if currentLanguage == "zh" {
        title := ZhTitle;
      } else {
        title := PtTitle;
      }
    }

    /** `changeLanguage(language)`: a language without a table changes
        nothing and shows nothing; a supported one becomes the current
        language. When the storage write then succeeds (`writable`) it is
        also the stored language, the page is translated again, and the
        toast shows the raw id "language_changed" because no table has it;
        when the write throws, the new current language stays, but nothing
        is stored, retranslated or shown. */
    method ChangeLanguage(language: string, writable: bool) returns (toast: Option<string>)
      requires Valid()
      modifies this`currentLanguage, this`storedLanguage, this`texts, this`title
      ensures language !in Languages ==> toast == None && unchanged(this)
      ensures language in Languages ==> currentLanguage == language
      ensures language in Languages && !writable ==>
        && toast == None
        && storedLanguage == old(storedLanguage) && title == old(title) && texts == old(texts)
      ensures language in Languages && writable ==>
        && storedLanguage == Some(language)
        && title == PageTitle(language)
        && |texts| == |elementKeys|
        && (forall i :: 0 <= i < |elementKeys| ==> texts[i] == Lookup(TableOf(language), elementKeys[i], None))
        && toast == Some(LanguageChangedToast)
      ensures old(Supported()) ==> Supported()
    {
      if language !in Languages {
        return None;
      }
      currentLanguage := language;
      if !writable {
        return None;
      }
      storedLanguage := Some(language);
      ApplyTranslations();
      var message := Translate(LanguageChangedToast, None);
      toast := Some(if message != "" then message else "Language changed successfully!");
    }
  }
}

/** The translation tables of lib/i18n.ts and the lookup `t`. A table is a
    function from key to text; a key the table lacks reads as the empty string,
    which the lookup's `||` treats exactly as JavaScript treats `undefined`. */
module I18n {
  import opened Types

  /** `translations.en` (lib/i18n.ts, lines 4-87). */
  function EnText(key: string): string
  {
    match key
    case "home" => "Home"
    case "dashboard" => "Dashboard"
    case "announcements" => "Announcements"
    case "events" => "Events"
    case "departments" => "Departments"
    case "admin" => "Admin Panel"
    case "settings" => "Settings"
    case "profile" => "Profile"
    case "logout" => "Logout"
    case "login" => "Login"
    case "welcomeBack" => "Welcome back"
    case "todayOverview" => "Today's Overview"
    case "urgentNews" => "Urgent News"
    case "upcomingEvents" => "Upcoming Events"
    case "ceoUpdates" => "CEO Updates"
    case "departmentNews" => "Department News"
    case "recentAnnouncements" => "Recent Announcements"
    case "viewAll" => "View All"
    case "urgent" => "Urgent"
    case "important" => "Important"
    case "event" => "Event"
    case "deadline" => "Deadline"
    case "ceo" => "CEO"
    case "general" => "General"
    case "engineering" => "Engineering"
    case "marketing" => "Marketing"
    case "sales" => "Sales"
    case "hr" => "Human Resources"
    case "finance" => "Finance"
    case "operations" => "Operations"
    case "allDepartments" => "All Departments"
    case "createAnnouncement" => "Create Announcement"
    case "editAnnouncement" => "Edit Announcement"
    case "deleteAnnouncement" => "Delete Announcement"
    case "manageEvents" => "Manage Events"
    case "manageUsers" => "Manage Users"
    case "aiAutomation" => "AI Automation"
    case "pending" => "Pending"
    case "approved" => "Approved"
    case "rejected" => "Rejected"
    case "chatbotTitle" => "Company Assistant"
    case "askQuestion" => "Ask a question..."
    case "chatbotWelcome" => "Hello! How can I help you today?"
    case "search" => "Search"
    case "save" => "Save"
    case "cancel" => "Cancel"
    case "delete" => "Delete"
    case "edit" => "Edit"
    case "create" => "Create"
    case "submit" => "Submit"
    case "loading" => "Loading..."
    case "noResults" => "No results found"
    case "readMore" => "Read More"
    case "postedOn" => "Posted on"
    case "by" => "by"
    case "notifications" => "Notifications"
    case "markAllRead" => "Mark all as read"
    case "noNotifications" => "No new notifications"
    case "signInWithMicrosoft" => "Sign in with Microsoft"
    case "signingIn" => "Signing in..."
    case "roleAdmin" => "Administrator"
    case "roleEmployee" => "Employee"
    case "roleCeo" => "CEO"
    case _ => ""
  }

  /** `translations.ja` (lib/i18n.ts, lines 88-171). */
  function JaText(key: string): string
  {
    match key
    case "home" => "ホーム"
    case "dashboard" => "ダッシュボード"
    case "announcements" => "お知らせ"
    case "events" => "イベント"
    case "departments" => "部署"
    case "admin" => "管理パネル"
    case "settings" => "設定"
    case "profile" => "プロフィール"
    case "logout" => "ログアウト"
    case "login" => "ログイン"
    case "welcomeBack" => "おかえりなさい"
    case "todayOverview" => "今日の概要"
    case "urgentNews" => "緊急ニュース"
    case "upcomingEvents" => "今後のイベント"
    case "ceoUpdates" => "CEOからの更新"
    case "departmentNews" => "部署ニュース"
    case "recentAnnouncements" => "最近のお知らせ"
    case "viewAll" => "すべて見る"
    case "urgent" => "緊急"
    case "important" => "重要"
    case "event" => "イベント"
    case "deadline" => "締め切り"
    case "ceo" => "CEO"
    case "general" => "一般"
    case "engineering" => "エンジニアリング"
    case "marketing" => "マーケティング"
    case "sales" => "営業"
    case "hr" => "人事"
    case "finance" => "財務"
    case "operations" => "運営"
    case "allDepartments" => "全部署"
    case "createAnnouncement" => "お知らせを作成"
    case "editAnnouncement" => "お知らせを編集"
    case "deleteAnnouncement" => "お知らせを削除"
    case "manageEvents" => "イベント管理"
    case "manageUsers" => "ユーザー管理"
    case "aiAutomation" => "AI自動化"
    case "pending" => "保留中"
    case "approved" => "承認済み"
    case "rejected" => "却下"
    case "chatbotTitle" => "会社アシスタント"
    case "askQuestion" => "質問を入力..."
    case "chatbotWelcome" => "こんにちは！本日はどのようなご用件でしょうか？"
    case "search" => "検索"
    case "save" => "保存"
    case "cancel" => "キャンセル"
    case "delete" => "削除"
    case "edit" => "編集"
    case "create" => "作成"
    case "submit" => "送信"
    case "loading" => "読み込み中..."
    case "noResults" => "結果が見つかりません"
    case "readMore" => "続きを読む"
    case "postedOn" => "投稿日"
    case "by" => "投稿者"
    case "notifications" => "通知"
    case "markAllRead" => "すべて既読にする"
    case "noNotifications" => "新しい通知はありません"
    case "signInWithMicrosoft" => "Microsoftでサインイン"
    case "signingIn" => "サインイン中..."
    case "roleAdmin" => "管理者"
    case "roleEmployee" => "従業員"
    case "roleCeo" => "CEO"
    case _ => ""
  }

  /** The keys the English table declares. */
  predicate IsTableKey(key: string)
  {
    key in {
    "home", "dashboard", "announcements", "events", "departments", "admin",
    "settings", "profile", "logout", "login", "welcomeBack", "todayOverview",
    "urgentNews", "upcomingEvents", "ceoUpdates", "departmentNews", "recentAnnouncements", "viewAll",
    "urgent", "important", "event", "deadline", "ceo", "general",
    "engineering", "marketing", "sales", "hr", "finance", "operations",
    "allDepartments", "createAnnouncement", "editAnnouncement", "deleteAnnouncement", "manageEvents", "manageUsers",
    "aiAutomation", "pending", "approved", "rejected", "chatbotTitle", "askQuestion",
    "chatbotWelcome", "search", "save", "cancel", "delete", "edit",
    "create", "submit", "loading", "noResults", "readMore", "postedOn",
    "by", "notifications", "markAllRead", "noNotifications", "signInWithMicrosoft", "signingIn",
    "roleAdmin", "roleEmployee", "roleCeo"
    }
  }

  function Text(lang: Language, key: string): string
  {
    if lang == Language.Ja then JaText(key) else EnText(key)
  }

  /** `t(key, lang)`: `translations[lang][key] || translations.en[key] || key`. */
  function T(key: string, lang: Language): string
  {
    if Text(lang, key) != "" then Text(lang, key)
    else if EnText(key) != "" then EnText(key)
    else key
  }

  /** The English table defines exactly the table keys, each with a non-empty text. */
  lemma EnDefinesTableKeys(key: string)
    ensures EnText(key) != "" <==> IsTableKey(key)
  {
  }

  /** The Japanese table defines exactly the same keys, each with a non-empty text. */
  lemma JaDefinesTableKeys(key: string)
    ensures JaText(key) != "" <==> IsTableKey(key)
  {
  }

  lemma TablesDefineSameKeys(key: string)
    ensures EnText(key) != "" <==> IsTableKey(key)
    ensures JaText(key) != "" <==> IsTableKey(key)
  {
    EnDefinesTableKeys(key);
    JaDefinesTableKeys(key);
  }

  /** For a key of the tables, `t` yields the requested language's own entry. */
  lemma TableKeyTranslates(key: string, lang: Language)
    requires IsTableKey(key)
    ensures T(key, lang) == Text(lang, key) && T(key, lang) != ""
  {
    TablesDefineSameKeys(key);
  }

  /** A key that neither table defines comes back unchanged. The tables are
      plain objects, so names inherited from `Object.prototype` ("constructor",
      "toString", ...) would be found and not echoed; those names are outside
      this model, and no page asks for one. */
  lemma UnknownKeyEchoes(key: string, lang: Language)
    requires !IsTableKey(key)
    ensures T(key, lang) == key
  {
    TablesDefineSameKeys(key);
  }

  /** The help-desk and documents pages ask for keys the tables do not define. */
  lemma MissingKeysUsedByPages(lang: Language)
    ensures T("helpDesk", lang) == "helpDesk"
    ensures T("inProgress", lang) == "inProgress"
    ensures T("documents", lang) == "documents"
  {
  }

  /** So does the Teams page. */
  lemma MissingTeamsKeys(lang: Language)
    ensures T("teams", lang) == "teams"
    ensures T("allTeams", lang) == "allTeams"
    ensures T("myTeams", lang) == "myTeams"
  {
  }
}

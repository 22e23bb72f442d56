/**
 * The static rule table of the activity classifier (ACTIVITY_RULES in app/lib/activityUtils.ts),
 * in declaration order, with the priorities, matchers, descriptions and hints as the original
 * has them. The table is sorted once by the classifier (see classifier.dfy); nothing here is
 * sorted.
 */
module Rules {
  import opened Wrappers
  import opened Activity
  import opened Matching

  datatype Rule = Rule(
    processMatchers: seq<Matcher>,
    titleMatchers: seq<Matcher>,
    activityType: ActivityType,
    activitySubType: Option<ActivitySubType>,
    descriptionTemplate: string,
    focusLevel: Option<Level>,
    intensity: Option<Level>,
    priority: int)

  /** matches: a rule fires when one of its process matchers accepts the process base name OR one
      of its title matchers accepts the cleaned title. */
  predicate Matches(rule: Rule, title: string, process: string)
    ensures Matches(rule, title, process) ==> rule.processMatchers != [] || rule.titleMatchers != []
  {
    AnyTest(rule.processMatchers, process) || AnyTest(rule.titleMatchers, title)
  }

  /** A rule matches exactly when some process matcher accepts the process OR some title matcher
      accepts the title; either side alone is enough. */
  lemma MatchesIsOr(rule: Rule, title: string, process: string)
    ensures Matches(rule, title, process) <==>
      || (exists k :: 0 <= k < |rule.processMatchers| && Test(rule.processMatchers[k], process))
      || (exists k :: 0 <= k < |rule.titleMatchers| && Test(rule.titleMatchers[k], title))
  {
    AnyTestIsSome(rule.processMatchers, process);
    AnyTestIsSome(rule.titleMatchers, title);
  }

  // ---------------------------------------------------------------------------------------------
  // Alternations written out

  /** `\.(e1|e2|...)\b` */
  function DottedExtensions(exts: seq<string>): seq<Matcher> {
    seq(|exts|, i requires 0 <= i < |exts| => Bounded("." + exts[i], false, true))
  }

  /** The last rule's title pattern is written with doubled backslashes, so it asks for a literal
      backslash, any one character, the extension, a second literal backslash and the letter b:
      `\\.(e1|e2|...)\\b`. */
  function BackslashedExtensions(exts: seq<string>): seq<Matcher> {
    seq(|exts|, i requires 0 <= i < |exts| => Wildcard("\\", exts[i] + "\\b"))
  }

  const CodeExtensions: seq<string> :=
    ["js", "ts", "py", "java", "kt", "go", "rs", "html", "css", "scss", "json", "md", "xml",
     "gradle", "dockerfile", "yaml", "yml"]

  const VideoExtensions: seq<string> := ["mkv", "mp4", "avi", "rmvb", "flv", "mov"]

  const Browsers: seq<Matcher> :=
    [Substring("chrome.exe"), Substring("msedge.exe"), Substring("firefox.exe"),
     Substring("safari.app"), Substring("brave.exe")]

  // ---------------------------------------------------------------------------------------------
  // Games

  const WutheringWaves := Rule(
    [Substring("wutheringwaves.exe"), Substring("wwlauncher.exe")],
    [Substring("wuthering waves"), Substring("鸣潮")],
    Gaming, Some(GamingIntense), "玩鸣潮", None, Some(High), 100)

  const Pubg := Rule(
    [Substring("tslgame.exe")],
    [Substring("playerunknown's battlegrounds"), Substring("pubg")],
    Gaming, Some(GamingIntense), "玩PUBG", None, Some(High), 100)

  const TheFinals := Rule(
    [Substring("discovery.exe")],
    [Substring("the finals")],
    Gaming, Some(GamingIntense), "玩THE FINALS", None, Some(High), 100)

  /** Declared for Genshin Impact, but described as "玩鸣潮" and also matching "鸣潮" titles. */
  const Genshin := Rule(
    [Substring("genshinimpact.exe"), Substring("yuanshen.exe"), Substring("client-win64-shipping.exe")],
    [Substring("genshin impact"), Substring("原神"), Substring("鸣潮")],
    Gaming, Some(GamingIntense), "玩鸣潮", None, Some(High), 100)

  const LastOfUs := Rule(
    [Bounded("tloupart1.exe", true, true)],
    [Substring("the last of us part i"), Substring("最后生还者第一部")],
    Gaming, Some(GamingIntense), "玩最后生还者", None, Some(High), 100)

  const Cyberpunk := Rule(
    [Substring("cyberpunk2077.exe")],
    [Substring("cyberpunk 2077"), Substring("赛博朋克2077")],
    Gaming, Some(GamingIntense), "玩赛博朋克2077", None, Some(High), 100)

  const Minecraft := Rule(
    [Substring("javaw.exe"), Substring("minecraftlauncher.exe")],
    [Bounded("minecraft", false, true), Substring("我的世界")],
    Gaming, Some(GamingCasual), "玩Minecraft", None, Some(Medium), 99)

  const Palworld := Rule(
    [Substring("palworld-win64-shipping.exe")],
    [Substring("palworld"), Substring("幻兽帕鲁")],
    Gaming, Some(GamingCasual), "玩幻兽帕鲁", None, Some(Medium), 99)

  const Witcher3 := Rule(
    [Substring("witcher3.exe")],
    [Substring("the witcher 3"), Substring("巫师3")],
    Gaming, Some(GamingIntense), "玩巫师3", None, Some(High), 100)

  const RedDead2 := Rule(
    [Substring("rdr2.exe")],
    [Substring("red dead redemption 2"), Substring("荒野大镖客2")],
    Gaming, Some(GamingIntense), "玩荒野大镖客2", None, Some(High), 100)

  const Gta5 := Rule(
    [Substring("gta5.exe")],
    [Substring("grand theft auto v"), Substring("侠盗猎车手5")],
    Gaming, Some(GamingIntense), "玩GTA V", None, Some(High), 100)

  const SteamGame := Rule(
    [Substring("steam.exe")],
    Words(["game", "play", "level", "steam"]),
    Gaming, Some(GamingCasual), "不知道在玩什么游戏", None, Some(Medium), 10)

  // ---------------------------------------------------------------------------------------------
  // Development tools

  const VsCode := Rule(
    [Substring("code.exe"), Substring("code - insiders.exe")],
    [Substring("visual studio code")] + DottedExtensions(CodeExtensions),
    Working, Some(CodingActive), "用 VSCode", Some(High), None, 90)

  const Cursor := Rule(
    [Substring("cursor.exe")],
    [Substring("cursor")] + DottedExtensions(CodeExtensions),
    Working, Some(CodingActive), "用 Cursor", Some(High), None, 91)

  const AndroidStudio := Rule(
    [Substring("studio64.exe"), Substring("androidstudio64.exe")],
    [Substring("android studio"), Substring("manifest.xml")] + DottedExtensions(["kt", "java", "xml"]),
    Working, Some(AndroidDevelopment), "用 Android Studio", Some(High), None, 95)

  const JetBrains := Rule(
    [Substring("idea64.exe"), Substring("pycharm64.exe"), Substring("webstorm64.exe"),
     Substring("goland64.exe"), Substring("clion64.exe"), Substring("rubymine64.exe"),
     Substring("phpstorm64.exe"), Substring("datagrip64.exe")],
    [Substring("intellij idea"), Substring("pycharm"), Substring("webstorm"), Substring("goland"),
     Substring("clion"), Substring("rubymine"), Substring("phpstorm"), Substring("datagrip")],
    Working, Some(CodingActive), "用 JetBrains IDE", Some(High), None, 92)

  const Zed := Rule(
    [Substring("zed.exe")],
    [Substring("zed")] + DottedExtensions(["rs", "js", "ts", "py", "go", "md"]),
    Working, Some(CodingActive), "用 Zed", Some(High), None, 89)

  const SublimeText := Rule(
    [Substring("sublime_text.exe")],
    [Substring("sublime text")],
    Working, Some(CodingActive), "用 Sublime Text", Some(Medium), None, 88)

  const Atom := Rule(
    [Substring("atom.exe")],
    [Substring("atom")],
    Working, Some(CodingActive), "用 Atom", Some(Medium), None, 87)

  const VisualStudio := Rule(
    [Substring("devenv.exe")],
    [Substring("microsoft visual studio")] + DottedExtensions(["cs", "vb", "cpp", "fs"]),
    Working, Some(CodingActive), "用 Visual Studio", Some(High), None, 90)

  const Xcode := Rule(
    [Substring("xcode.app")],
    [Substring("xcode")] + DottedExtensions(["swift", "m", "h", "storyboard", "xib"]),
    Working, Some(CodingActive), "用 Xcode", Some(High), None, 90)

  const Unity := Rule(
    [Substring("unity.exe")],
    [Substring("unity"), Substring("game scene")],
    Working, Some(DesigningUiux), "用 Unity", Some(High), None, 85)

  const Unreal := Rule(
    [Substring("unrealeditor.exe")],
    [Substring("unreal editor"), Substring("blueprint")],
    Working, Some(DesigningUiux), "用 Unreal Engine", Some(High), None, 85)

  const Postman := Rule(
    [Substring("postman.exe")],
    [Substring("postman"), Substring("request"), Substring("collection")],
    Working, Some(CodingActive), "用 Postman 测试 API", Some(Medium), None, 80)

  const Figma := Rule(
    [Substring("figma.exe"), Substring("sketch.app")],
    [Substring("figma"), Substring("sketch"), Substring("untitled design")],
    Working, Some(DesigningUiux), "进行 UI/UX 设计", Some(High), None, 80)

  // ---------------------------------------------------------------------------------------------
  // Browsers

  const ChatGpt := Rule(
    Browsers,
    [Substring("chatgpt"), Substring("openai.com")],
    AiInteraction, Some(AiChattingAssistant), "与 ChatGPT 对话", Some(Medium), None, 75)

  const Gemini := Rule(
    Browsers,
    [Substring("gemini.google.com"), Substring("bard.google.com")],
    AiInteraction, Some(AiChattingAssistant), "与 Gemini 对话", Some(Medium), None, 75)

  const AiStudio := Rule(
    Browsers,
    [Substring("aistudio.google.com"), Substring("google ai studio")],
    AiInteraction, Some(AiChattingAssistant), "用 Google AI Studio", Some(Medium), None, 75)

  const VideoSites := Rule(
    Browsers,
    [Substring("bilibili.com"), Substring("哔哩哔哩"), Substring("youtube.com"), Substring("youtu.be")],
    Entertainment, Some(WatchingShortVideo), "看短视频", Some(Low), None, 70)

  const TechReading := Rule(
    Browsers,
    [Substring("stackoverflow.com"), Substring("github.com"), Substring("developer.mozilla.org"),
     Spanning("medium.com/", "programming"), Spanning("medium.com/", "develop"),
     Spanning("medium.com/", "code"), Spanning("medium.com/", "software"),
     Bounded(".dev", false, true), Substring("掘金"), Substring("csdn"), Substring("segmentfault"),
     Substring("v2ex.com")],
    Learning, Some(LearningReadingDocs), "查阅技术资料/看技术博客", Some(High), None, 78)

  const OnlineCourses := Rule(
    Browsers,
    [Substring("coursera.org"), Substring("udemy.com"), Substring("edx.org"),
     Substring("khanacademy.org"), Substring("中国大学mooc"), Substring("学堂在线"),
     Substring("网易公开课"), Substring("freecodecamp.org")],
    Learning, Some(LearningVideoCourse), "在线学习课程", Some(High), None, 77)

  const SocialMedia := Rule(
    Browsers,
    [Substring("微博"), Substring("twitter.com"), Substring("facebook.com"),
     Substring("instagram.com"), Substring("知乎"), Substring("豆瓣"), Substring("reddit.com")],
    Social, Some(BrowsingSocialMedia), "刷社交媒体", Some(Low), None, 60)

  const Shopping := Rule(
    Browsers,
    [Substring("淘宝"), Substring("tmall"), Substring("京东"), Substring("jd.com"),
     Substring("amazon"), Substring("pinduoduo")],
    Browsing, Some(BrowsingShopping), "网上购物", Some(Low), None, 50)

  const AnyPage := Rule(
    Browsers,
    [Everything],
    Browsing, Some(BrowsingGeneral), "浏览网页", Some(Low), None, 5)

  // ---------------------------------------------------------------------------------------------
  // Messaging and meetings

  const WeChat := Rule(
    [Substring("wechat.exe"), Substring("weixin.exe")],
    [Substring("微信")],
    Social, Some(ChattingIm), "聊微信", Some(Medium), None, 65)

  const Qq := Rule(
    [Substring("qq.exe")],
    [Substring("qq"), Substring("腾讯qq")],
    Social, Some(ChattingIm), "聊QQ", Some(Medium), None, 64)

  const DingTalk := Rule(
    [Substring("dingtalk.exe")],
    [Substring("钉钉"), Substring("会议"), Substring("直播")],
    Meeting, Some(MeetingOnlineConference), "用钉钉", Some(Medium), None, 70)

  /** A WORKING rule carrying a messaging sub-category, as in the original. */
  const Slack := Rule(
    [Substring("slack.exe")],
    [Substring("slack")],
    Working, Some(ChattingIm), "用Slack沟通", Some(Medium), None, 72)

  const Discord := Rule(
    [Substring("discord.exe")],
    [Substring("discord")],
    Social, Some(VoiceVideoCall), "用Discord", Some(Medium), None, 68)

  const Zoom := Rule(
    [Substring("zoom.exe"), Substring("vmwarezoom.exe")],
    [Substring("zoom"), Substring("会议"), Substring("meeting")],
    Meeting, Some(MeetingOnlineConference), "参加Zoom会议", Some(High), None, 76)

  const Teams := Rule(
    [Substring("teams.exe")],
    [Substring("microsoft teams"), Substring("会议"), Substring("call")],
    Meeting, Some(MeetingOnlineConference), "参加Teams会议/通话", Some(High), None, 76)

  const GoogleMeet := Rule(
    [Substring("chrome.exe"), Substring("msedge.exe"), Substring("firefox.exe")],
    [Substring("meet.google.com"), Substring("正在通话"), Substring("会议中")],
    Meeting, Some(MeetingOnlineConference), "参加Google Meet会议", Some(High), None, 77)

  const Unigram := Rule(
    [Substring("applicationframehost.exe")],
    [Substring("unigram")],
    Social, Some(ChattingIm), "用Unigram聊天", Some(Medium), None, 65)

  // ---------------------------------------------------------------------------------------------
  // Media players

  const CloudMusic := Rule(
    [Substring("cloudmusic.exe"), Substring("neteasecloudmusic.exe")],
    [Substring("网易云音乐")],
    Entertainment, Some(ListeningMusic), "听网易云音乐", Some(Low), None, 55)

  const QqMusic := Rule(
    [Substring("qqmusic.exe")],
    [Substring("qq音乐")],
    Entertainment, Some(ListeningMusic), "听QQ音乐", Some(Low), None, 54)

  const Spotify := Rule(
    [Substring("spotify.exe")],
    [Substring("spotify")],
    Entertainment, Some(ListeningMusic), "听Spotify", Some(Low), None, 56)

  const PotPlayerVideo := Rule(
    [Spanning("potplayer", ".exe")],
    DottedExtensions(VideoExtensions),
    Entertainment, Some(WatchingMovieSeries), "用PotPlayer看片", Some(Low), None, 60)

  const PotPlayerCourse := Rule(
    [Spanning("potplayer", ".exe")],
    [Substring("教程"), Substring("课程"), Substring("教学"), Substring("lesson"),
     Substring("course"), Substring("tutorial")],
    Learning, Some(LearningVideoCourse), "用PotPlayer看学习视频", Some(Medium), None, 62)

  const Vlc := Rule(
    [Substring("vlc.exe")],
    DottedExtensions(VideoExtensions),
    Entertainment, Some(WatchingMovieSeries), "用VLC看片", Some(Low), None, 59)

  // ---------------------------------------------------------------------------------------------
  // Notes and knowledge management

  const Obsidian := Rule(
    [Substring("obsidian.exe")],
    [Substring("obsidian"), Bounded(".md", false, true)],
    NoteTaking, Some(NoteTakingOrganizing), "用Obsidian记笔记/整理知识", Some(Medium), None, 70)

  const Notion := Rule(
    [Substring("notion.exe")],
    [Substring("notion")],
    Planning, Some(PlanningTaskManagement), "用Notion", Some(Medium), None, 71)

  const Typora := Rule(
    [Substring("typora.exe")],
    [Substring("typora"), Bounded(".md", false, true)],
    NoteTaking, Some(WritingDocs), "用Typora写文档", Some(Medium), None, 69)

  const Evernote := Rule(
    [Substring("evernote.exe"), Substring("yinxiang.exe")],
    [Substring("evernote"), Substring("印象笔记")],
    NoteTaking, Some(NoteTakingQuick), "用印象笔记", Some(Medium), None, 68)

  // ---------------------------------------------------------------------------------------------
  // System and fallbacks

  const Explorer := Rule(
    [Substring("explorer.exe")],
    [Everything],
    Browsing, Some(BrowsingGeneral), "管理文件", Some(Low), None, 20)

  /** Its process pattern accepts every process, so this rule matches every input. */
  const Compiling := Rule(
    [Everything],
    [Substring("编译"), Substring("compile"), Substring("building"), Substring("打包")],
    SystemTask, Some(SystemCompiling), "程序编译中", Some(Low), None, 30)

  const CodeInTerminal := Rule(
    [Substring("code.exe"), Substring("sublime_text.exe"), Substring("atom.exe"),
     Substring("devenv.exe"), Substring("xcode.app"), Substring("zed.exe"), Substring("cursor.exe"),
     Substring("terminal"), Substring("cmd"), Substring("powershell")],
    BackslashedExtensions(
      ["js", "ts", "jsx", "tsx", "py", "java", "kt", "go", "rs", "html", "css", "scss", "json",
       "md", "xml", "gradle", "dockerfile", "yaml", "yml", "c", "cpp", "rb", "php", "sql"]),
    Working, Some(CodingActive), "写代码", Some(High), None, 85)

  const GameRules: seq<Rule> := [
    WutheringWaves, Pubg, TheFinals, Genshin, LastOfUs, Cyberpunk, Minecraft, Palworld, Witcher3,
    RedDead2, Gta5, SteamGame]

  const DevelopmentRules: seq<Rule> := [
    VsCode, Cursor, AndroidStudio, JetBrains, Zed, SublimeText, Atom, VisualStudio, Xcode, Unity,
    Unreal, Postman, Figma]

  const BrowserRules: seq<Rule> := [
    ChatGpt, Gemini, AiStudio, VideoSites, TechReading, OnlineCourses, SocialMedia, Shopping, AnyPage]

  const MessagingRules: seq<Rule> := [
    WeChat, Qq, DingTalk, Slack, Discord, Zoom, Teams, GoogleMeet, Unigram]

  const MediaRules: seq<Rule> := [
    CloudMusic, QqMusic, Spotify, PotPlayerVideo, PotPlayerCourse, Vlc]

  const NoteRules: seq<Rule> := [Obsidian, Notion, Typora, Evernote]

  const SystemRules: seq<Rule> := [Explorer, Compiling, CodeInTerminal]

  /** ACTIVITY_RULES in declaration order. */
  const ActivityRules: seq<Rule> :=
    GameRules + DevelopmentRules + BrowserRules + MessagingRules + MediaRules + NoteRules + SystemRules

  /** Positions in ActivityRules of the rules the lemmas single out. */
  const SteamGameIndex := 11
  const CursorIndex := 13
  const TechReadingIndex := 29
  const AnyPageIndex := 33
  const ExplorerIndex := 53
  const CompilingIndex := 54
}

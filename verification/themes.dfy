/** The colour themes of the chat UI and the lookup by id with a fallback to the
    first theme. */
module Themes {
  import opened Js

  /** The palette of one theme: background, text, accent, border, status and
      chat-specific colours, as CSS colour strings. */
  datatype Colors = Colors(
    background: string,
    surface: string,
    surfaceHover: string,
    textPrimary: string,
    textSecondary: string,
    textMuted: string,
    accent: string,
    accentHover: string,
    border: string,
    borderHover: string,
    success: string,
    warning: string,
    error: string,
    userMessage: string,
    aiMessage: string,
    codeBlock: string
  )

  datatype Theme = Theme(id: string, name: string, description: string, colors: Colors)

  /** `themes`: the seven built-in themes, in menu order. */
  const ThemeTable: seq<Theme> := [
      Theme("dark", "Dark", "Classic dark theme with gray tones",
            Colors("#0f0f0f", "#1a1a1a", "#2a2a2a", "#ffffff", "#d1d5db", "#9ca3af", "#3b82f6", "#2563eb", "#374151", "#4b5563", "#10b981", "#f59e0b", "#ef4444", "#1e40af", "#1a1a1a", "#111827")),
      Theme("light", "Light", "Clean light theme with subtle shadows",
            Colors("#ffffff", "#f9fafb", "#f3f4f6", "#111827", "#374151", "#6b7280", "#3b82f6", "#2563eb", "#e5e7eb", "#d1d5db", "#10b981", "#f59e0b", "#ef4444", "#dbeafe", "#f9fafb", "#f3f4f6")),
      Theme("ocean", "Ocean", "Calming blue-green theme inspired by the sea",
            Colors("#0c1821", "#1a2332", "#243447", "#f0f9ff", "#bae6fd", "#7dd3fc", "#06b6d4", "#0891b2", "#164e63", "#0e7490", "#14b8a6", "#f59e0b", "#ef4444", "#0c4a6e", "#1a2332", "#0f172a")),
      Theme("forest", "Forest", "Natural green theme with earthy tones",
            Colors("#0f1611", "#1a2e1a", "#2a3f2a", "#f7fee7", "#d9f99d", "#bef264", "#22c55e", "#16a34a", "#365314", "#4d7c0f", "#10b981", "#f59e0b", "#ef4444", "#14532d", "#1a2e1a", "#0f172a")),
      Theme("sunset", "Sunset", "Warm orange and red theme like a sunset",
            Colors("#1c0f0a", "#2c1810", "#3c2415", "#fff7ed", "#fed7aa", "#fdba74", "#f97316", "#ea580c", "#9a3412", "#c2410c", "#10b981", "#f59e0b", "#ef4444", "#9a3412", "#2c1810", "#1c1917")),
      Theme("lavender", "Lavender", "Soft purple theme with elegant aesthetics",
            Colors("#1a0f1a", "#2a1829", "#3a2139", "#faf5ff", "#e9d5ff", "#d8b4fe", "#a855f7", "#9333ea", "#6b21a8", "#7e22ce", "#10b981", "#f59e0b", "#ef4444", "#581c87", "#2a1829", "#1e1b4b")),
      Theme("sentry", "Sentry", "Sentry-inspired dark theme with purple and orange",
            Colors("#1a1621", "#2a2139", "#3a2f4a", "#f8fafc", "#e2e8f0", "#cbd5e1", "#f97316", "#ea580c", "#4c1d95", "#5b21b6", "#10b981", "#f59e0b", "#ef4444", "#7c2d12", "#2a2139", "#1e1b4b"))
    ]

  /** `defaultTheme`. */
  const DefaultTheme: Theme := ThemeTable[0]

  function HasId(themeId: string): Theme -> bool {
    (t: Theme) => t.id == themeId
  }

  /** A lookup by id in a non-empty list of themes: the first theme with that id, or
      the first theme of the list when none has it. */
  function LookupTheme(table: seq<Theme>, themeId: string): (t: Theme)
    requires table != []
    ensures t in table
    ensures (exists i :: 0 <= i < |table| && table[i].id == themeId) ==> t.id == themeId
    ensures (forall i :: 0 <= i < |table| ==> table[i].id != themeId) ==> t == table[0]
  {
    match FindIndex(table, HasId(themeId))
    case Some(i) => table[i]
    case None => table[0]
  }

  /** `getTheme(themeId)`: the theme with that id when there is one, otherwise the
      first theme; either way a member of the table. */
  function GetTheme(themeId: string): (t: Theme)
    ensures t in ThemeTable
    ensures (exists i :: 0 <= i < |ThemeTable| && ThemeTable[i].id == themeId) ==> t.id == themeId
    ensures (forall i :: 0 <= i < |ThemeTable| ==> ThemeTable[i].id != themeId) ==> t == DefaultTheme
  {
    LookupTheme(ThemeTable, themeId)
  }

  /** No two themes share an id, so a lookup by id is unambiguous. */
  lemma ThemeIdsDistinct()
    ensures forall i, j :: 0 <= i < j < |ThemeTable| ==> ThemeTable[i].id != ThemeTable[j].id
  {
  }

  /** Looking up the id of any theme in the table returns that very theme. */
  lemma GetThemeOfTableMember(i: nat)
    requires i < |ThemeTable|
    ensures GetTheme(ThemeTable[i].id) == ThemeTable[i]
  {
    ThemeIdsDistinct();
  }

  /** The default theme is the dark theme, and it is what an unknown id falls back to. */
  lemma DefaultThemeIsFallback(themeId: string)
    requires forall i :: 0 <= i < |ThemeTable| ==> ThemeTable[i].id != themeId
    ensures DefaultTheme.id == "dark" && GetTheme(themeId) == DefaultTheme
  {
  }
}

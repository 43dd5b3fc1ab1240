/** Shared records of src/types.ts and the theme constants of src/theme.ts. */
module Types {
  import opened Wrappers

  /** `CraftLayout = string | null`: the editor's opaque serialized node tree. */
  type Layout = Option<string>

  datatype ThemeMode = Light | Dark | Custom

  datatype ThemeConfig = ThemeConfig(
    mode: ThemeMode,
    primaryColor: string,
    background: string,
    text: string)

  /** `ProjectBuildConfig`: the unit of persistence. */
  datatype BuildConfig = BuildConfig(
    projectId: string,
    theme: ThemeConfig,
    homeLayout: Layout,
    vadLayout: Layout,
    resultsLayout: Layout)

  const LightTheme: ThemeConfig := ThemeConfig(Light, "#55883B", "#ffffff", "#000000")
  const DarkTheme: ThemeConfig := ThemeConfig(Dark, "#55883B", "#1a1a1a", "#ffffff")
  /** The build session starts on the light theme. */
  const DefaultTheme: ThemeConfig := LightTheme
}

/** The design-token colours the viewings map chooses its markers from. */
module Theme {

  /** `colors.primary.orange`. */
  const PrimaryOrange: string := "#FF914D"

  /** `colors.accent.yellow`. */
  const AccentYellow: string := "#FFFF00"

  /** `colors.semantic.success`. */
  const SemanticSuccess: string := "#77C720"
}

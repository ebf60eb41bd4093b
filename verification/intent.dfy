/** The structured query every extraction path produces: who, which stat,
    which line and which side of it. */
module Intent {

  datatype Query = Query(player: string, stat: string, line: real, direction: string)

  /** What every fallback parser returns when its pattern does not match. */
  const NoMatch: Query := Query("", "Points", 20.5, "over")
}

/// Every discrete user intent the key router can produce.
module Actions {
  datatype Action =
    | Quit
    | SelectUp | SelectDown | SelectPageUp | SelectPageDown | SelectFirst | SelectLast
    | ToggleHelp | HelpScrollUp | HelpScrollDown | TogglePause | ToggleGraph
    | ToggleIndices | ToggleSystemIndices | ToggleHealth
    | ShowDetails | ToggleExclude | ClearExclusions
    | IncreaseRefreshRate | DecreaseRefreshRate | NextColormap | PrevColormap
    | NextColumn | PrevColumn | ToggleSortOrder
    | EnterFilterMode | ExitFilterMode | ClearFilter
    | CloseDetails | DetailsScrollUp | DetailsScrollDown
    | DetailsScrollPageUp | DetailsScrollPageDown
}

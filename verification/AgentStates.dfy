module AgentStates {
  datatype AgentState = Starting | Idle | Working | Exited | Restarting
}

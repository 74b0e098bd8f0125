/** When memory asks its strategy what to do. */
module MemoryPolicy {

  datatype Phase = TurnStart | Step | TurnEnd | Overflow
}

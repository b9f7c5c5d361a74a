/** Types that the memory model and the process model share. */
module ProcTypes {
  datatype Option<+T> = None | Some(value: T)

  datatype ProcState = UNUSED | USED | SLEEPING | RUNNABLE | RUNNING | ZOMBIE
}

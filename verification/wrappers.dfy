/** The optional value used for attributes that Python creates and deletes on the fly
    (`plank_pause_time`, `wall_sit_start_time`) and for `None`-able fields. */
module Wrappers {
  datatype Option<+T> = None | Some(value: T)
}

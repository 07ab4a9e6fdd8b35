/** The optional value used where the bot's Python code has `None`. */
module Optional {

  datatype Option<+T> = None | Some(value: T)

}

/** The message boxes the screens show. */
module Alerts {

  /** A message box: its title and its text, verbatim. */
  datatype Alert = Alert(title: string, message: string)
}

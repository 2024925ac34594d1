/** The Cargo actions a session controls (crates/model/src/command.rs). */
module CargoActions {

  datatype Action = Build | Check | Test | Run | Clippy | Format | Doc | Add | Remove | Update
}

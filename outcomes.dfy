/** Shared result types of the provisioner: an optional value, the configuration
    problems Prepare reports, and the errors every other operation returns. */
module Outcomes {

  datatype Option<+T> = None | Some(value: T)

  /** One entry of the multi-error Prepare builds up. */
  datatype Problem =
    | PasswordWithoutUser   // elevated_password given without elevated_user
    | NoScript              // neither an inline script nor a script file
    | InlineAndScripts      // both an inline script and script files

  datatype Error =
    | Invalid(problems: seq<Problem>)   // Prepare's accumulated configuration errors
    | TempFileFailed                    // the temporary inline-script file could not be created
    | RenderFailed                      // interpolation of the execute command failed
    | StatFailed(path: string)          // the local script does not exist
    | EmptyRemotePath                   // the index panic on remotePath[len(remotePath)-1]
    | UploadFailed(remotePath: string)  // the communicator's upload failed
    | ElevationFailed                   // the elevated runner could not be generated
    | CommandFailed                     // the communicator could not run a command
    | RebootRefused(exitCode: int)      // the reboot-initiate command exited non-zero
    | ResponsesExhausted                // the scripted communicator has no answer left
}

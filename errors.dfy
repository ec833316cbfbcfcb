/** The exceptions the packaging steps raise, as values. Every one of them
    escapes the step that raised it and ends the whole run. */
module Errors {
  datatype Raised =
    | CannotParse(tarball: string)      // "Cannot parse tarball name: <tarball>"
    | ArchiveMissing(tarball: string)   // `assert isfile(self.tarball)` in `unpack`
    | PleaseInstall(package: string)    // "Please install the <package> package"
    | CommandFailed(command: string)    // `shell` saw a non-zero exit status
    | NotAllArgumentsConverted          // the TypeError of `'etc/init.d' % self.base`
    | NoSuchDirectory(path: string)     // `shutil.rmtree` of a directory that is not there
    | SameFile(path: string)            // `shutil.copy` of a file onto itself
}

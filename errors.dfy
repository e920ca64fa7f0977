/** The errors the core reports, one constructor per distinct Go error value. */
module Errors {
  datatype Error =
    | MainConfigProtected      // "cannot archive/toggle main nginx.conf"
    | EnabledDirNotConfigured  // "enabled directory not configured"
    | NotFound                 // the file or link to move or remove does not exist
    | AlreadyExists            // "site %s already exists in available sites"
    | ParseFailed              // the config does not read or parse
    | NoProxyTarget            // "no proxy target found"
    | WriteFailed              // creating a directory or writing a file failed
    | ValidationFailed         // "nginx configuration invalid"
    | ReloadFailed             // "failed to reload nginx"
}

/** Fixed origin, endpoint paths and storage keys of the client. */
module Constants {
  const BaseURL: string := "https://dorry-backend.onrender.com"
  const GoogleLoginPath: string := "/api/auth/google/login"
  const ChatPath: string := "/api/chat"
  const IngestTextPath: string := "/api/ingest/text"
  const IngestPdfPath: string := "/api/ingest/pdf"
  const DocumentsPath: string := "/api/documents/"
  /** Keychain account names. */
  const JwtTokenKey: string := "jwt_token"
  const UserIdKey: string := "user_id"
  /** The UserDefaults slot that holds the encoded current user. */
  const CurrentUserKey: string := "currentUser"
}

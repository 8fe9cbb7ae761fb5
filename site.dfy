/**
 * The public address of the site the payment pages return to: the
 * `NEXT_PUBLIC_SITE_URL` environment setting, or the local development
 * address when it is unset or empty.
 */
module Site {
  const DefaultSiteUrl := "http://localhost:3000"

  /** `process.env.NEXT_PUBLIC_SITE_URL || 'http://localhost:3000'`, with an unset variable read as "". */
  function SiteUrl(env: string): (url: string)
    ensures url != ""
    ensures env != "" ==> url == env
    ensures env == "" ==> url == DefaultSiteUrl
  {
    if env == "" then DefaultSiteUrl else env
  }
}

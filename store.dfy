/** The hosted store as the site sees it: the five tables and the auth
    client's current session. Every page reads and writes these; the pages'
    own state lives in their own classes. */
module Store {
  import opened Values
  import opened Tables

  class Database {
    var admins: seq<AdminUser>
    var sections: seq<Section>
    var history: seq<HistoryRow>
    var assets: seq<MediaAsset>
    var settings: seq<Setting>
    /** The auth identity of the signed-in session, if any. */
    var session: Option<string>

    constructor (admins: seq<AdminUser>, sections: seq<Section>, history: seq<HistoryRow>,
                 assets: seq<MediaAsset>, settings: seq<Setting>, session: Option<string>)
      ensures this.admins == admins && this.sections == sections && this.history == history
      ensures this.assets == assets && this.settings == settings && this.session == session
    {
      this.admins := admins;
      this.sections := sections;
      this.history := history;
      this.assets := assets;
      this.settings := settings;
      this.session := session;
    }
  }
}

/** The main window's state and its handlers for the bridge's events: the
    bound properties and the notices they raise, the group list, and the
    download of a received media file. */
module Window {
  import opened Wrappers
  import opened Text
  import opened NodeMessages
  import opened Commands
  import opened MediaFiles
  import opened MediaItems
  import B = Bridge

  /** A character that ends a directory or drive part of a Windows path. */
  predicate IsSeparator(c: char) {
    c == '\\' || c == '/' || c == ':'
  }

  /** `Path.Combine(folder, name)` for a name that is not rooted: a '\' is put
      between them unless the folder is empty or already ends with a
      separator. For an empty name .NET returns the folder alone; the window
      never combines an empty name, since every name it saves under ends
      with a non-empty extension. */
  function Combine(folder: string, name: string): (r: string)
    ensures EndsWith(r, name)
    ensures folder == [] ==> r == name
    ensures folder != [] ==> StartsWith(r, folder) && |name| < |r| && IsSeparator(r[|r| - |name| - 1])
  {
    if folder == [] then name
    else if folder[|folder| - 1] == '\\' || folder[|folder| - 1] == '/' then folder + name
    else folder + "\\" + name
  }

  /** `Path.GetFileName`: what follows the last separator. A ':' counts as
      one anywhere, whereas .NET treats it so only as a drive separator;
      the two agree on every path whose only ':' follows the drive letter. */
  function GetFileName(path: string): (r: string)
    ensures EndsWith(path, r)
    ensures forall i :: 0 <= i < |r| ==> !IsSeparator(r[i])
    ensures |r| < |path| ==> IsSeparator(path[|path| - |r| - 1])
  {
    if path == [] || IsSeparator(path[|path| - 1]) then []
    else GetFileName(path[..|path| - 1]) + [path[|path| - 1]]
  }

  /** A name without separators is the file name of the path it is put in. */
  lemma FileNameOfCombine(folder: string, name: string)
    requires forall i :: 0 <= i < |name| ==> !IsSeparator(name[i])
    ensures GetFileName(Combine(folder, name)) == name
  {
    var path := Combine(folder, name);
    var r := GetFileName(path);
    assert r == path[|path| - |r|..] == name;
  }

  /** Valid file names hold no separator. */
  lemma CleanHasNoSeparator(name: string)
    requires Clean(name)
    ensures forall i :: 0 <= i < |name| ==> !IsSeparator(name[i])
  {
  }

  /** How the clock and the file system answer while a media file is saved. */
  datatype SaveEnv = SaveEnv(
    /** `DateTime.Now` as `yyyyMMdd_HHmmss`, used for unnamed files. */
    stamp: string,
    /** Whether `Convert.FromBase64String` accepts the payload. */
    base64Ok: bool,
    /** Whether `File.WriteAllBytesAsync` succeeds. */
    writeOk: bool)

  /** The status line for a group list of `n` entries. */
  function LoadedGroups(n: nat): string {
    "Loaded " + NatToString(n) + " groups"
  }

  class MainWindow {
    /** The bridge this window subscribes to. */
    const service: B.WhatsAppService
    const downloadFolder: string
    /** The names of the files in the download folder. */
    var files: set<string>
    var statusMessage: string
    var isConnected: bool
    var isMonitoring: bool
    var isGroupsLoaded: bool
    var loggedInUserName: string
    /** The `Groups` collection, in display order. */
    var groups: seq<WhatsGroup>
    /** The `MediaItems` collection, in display order. */
    var mediaItems: seq<MediaItem>
    /** `ConnectButton.IsEnabled`. */
    var connectEnabled: bool
    /** Whether the QR overlay is visible. */
    var qrVisible: bool
    /** Whether the "Loading Groups" progress dialog is shown. */
    var progressVisible: bool
    /** Whether the group drop-down has been asked to open. */
    var dropDownOpen: bool
    /** The names passed to `PropertyChanged`, oldest first. */
    var changed: seq<string>

    /** The derived `IsGroupsLoadedAndNotMonitoring`. */
    function IsGroupsLoadedAndNotMonitoring(): (r: bool)
      reads this`isGroupsLoaded, this`isMonitoring
      ensures r ==> isGroupsLoaded
      ensures r <==> isGroupsLoaded && !isMonitoring
    {
      LoadedAndNotMonitoring(isGroupsLoaded, isMonitoring)
    }

    /** The derived `ConnectionStatus`. */
    function ConnectionStatus(): string
      reads this`isConnected
    {
      ConnectionStatusOf(isConnected)
    }

    /** The window's state before any event, with the folder listing not yet
        loaded. */
    constructor (service: B.WhatsAppService, downloadFolder: string, files: set<string>)
      ensures this.service == service && this.downloadFolder == downloadFolder && this.files == files
      ensures statusMessage == "Ready" && !isConnected && !isMonitoring && !isGroupsLoaded
      ensures loggedInUserName == "" && groups == [] && mediaItems == []
      ensures connectEnabled && !qrVisible && !progressVisible && !dropDownOpen && changed == []
    {
      this.service, this.downloadFolder, this.files := service, downloadFolder, files;
      statusMessage := "Ready";
      isConnected, isMonitoring, isGroupsLoaded := false, false, false;
      loggedInUserName, groups, mediaItems := "", [], [];
      connectEnabled, qrVisible, progressVisible, dropDownOpen := true, false, false, false;
      changed := [];
    }

    method SetStatusMessage(value: string)
      modifies this`statusMessage, this`changed
      ensures statusMessage == value
      ensures changed == old(changed) + Notice("StatusMessage", old(statusMessage) != value)
    {
      if statusMessage != value {
        statusMessage := value;
        changed := changed + ["StatusMessage"];
      }
    }

    method SetIsConnected(value: bool)
      modifies this`isConnected, this`changed
      ensures isConnected == value
      ensures changed == old(changed) + ConnectedNotices(old(isConnected) != value)
    {
      if isConnected != value {
        isConnected := value;
        changed := changed + ["IsConnected", "ConnectionStatus", "IsGroupsLoadedAndNotMonitoring"];
      }
    }

    method SetIsMonitoring(value: bool)
      modifies this`isMonitoring, this`changed
      ensures isMonitoring == value
      ensures changed == old(changed) + MonitoringNotices(old(isMonitoring) != value)
    {
      if isMonitoring != value {
        isMonitoring := value;
        changed := changed + ["IsMonitoring", "IsGroupsLoadedAndNotMonitoring"];
      }
    }

    method SetIsGroupsLoaded(value: bool)
      modifies this`isGroupsLoaded, this`changed
      ensures isGroupsLoaded == value
      ensures changed == old(changed) + GroupsLoadedNotices(old(isGroupsLoaded) != value)
    {
      if isGroupsLoaded != value {
        isGroupsLoaded := value;
        changed := changed + ["IsGroupsLoaded", "IsGroupsLoadedAndNotMonitoring"];
      }
    }

    /** The connection went up or down. Going up hides the QR overlay and
        asks the bridge for the groups; going down clears the monitoring
        flag, the group flag and the group list. */
    method OnConnectionStatusChanged(connected: bool)
      modifies this`isConnected, this`isMonitoring, this`isGroupsLoaded, this`statusMessage, this`groups
      modifies this`connectEnabled, this`qrVisible, this`progressVisible, this`changed, service`stdin
      ensures isConnected == connected && connectEnabled == !connected
      ensures connected ==> !qrVisible && progressVisible && statusMessage == "Connected as " + loggedInUserName
      ensures connected ==> isMonitoring == old(isMonitoring) && isGroupsLoaded == old(isGroupsLoaded) && groups == old(groups)
      ensures connected ==>
        service.stdin == old(service.stdin) + (if B.Alive(service.process) then [B.WriteLine(GetGroups), B.Flush] else [])
      ensures !connected ==> statusMessage == "Disconnected" && !isMonitoring && !isGroupsLoaded && groups == []
      ensures !connected ==> qrVisible == old(qrVisible) && progressVisible == old(progressVisible)
      ensures !connected ==> service.stdin == old(service.stdin)
      ensures connected ==> (changed == old(changed) + ConnectedNotices(!old(isConnected))
        + Notice("StatusMessage", old(statusMessage) != statusMessage))
      ensures !connected ==> (changed == old(changed) + ConnectedNotices(old(isConnected))
        + Notice("StatusMessage", old(statusMessage) != statusMessage)
        + MonitoringNotices(old(isMonitoring)) + GroupsLoadedNotices(old(isGroupsLoaded)))
    {
      SetIsConnected(connected);
      connectEnabled := !connected;
      if connected {
        ShowConnected();
      } else {
        ShowDisconnected();
      }
    }

    /** The connected branch of `OnConnectionStatusChanged`. */
    method ShowConnected()
      modifies this`qrVisible, this`statusMessage, this`progressVisible, this`changed, service`stdin
      ensures !qrVisible && progressVisible && statusMessage == "Connected as " + loggedInUserName
      ensures service.stdin == old(service.stdin) + (if B.Alive(service.process) then [B.WriteLine(GetGroups), B.Flush] else [])
      ensures changed == old(changed) + Notice("StatusMessage", old(statusMessage) != statusMessage)
    {
      qrVisible := false;
      SetStatusMessage("Connected as " + loggedInUserName);
      progressVisible := true;
      service.GetGroupsAsync();
    }

    /** The disconnected branch of `OnConnectionStatusChanged`. */
    method ShowDisconnected()
      modifies this`statusMessage, this`isMonitoring, this`isGroupsLoaded, this`groups, this`changed
      ensures statusMessage == "Disconnected" && !isMonitoring && !isGroupsLoaded && groups == []
      ensures changed == old(changed) + Notice("StatusMessage", old(statusMessage) != statusMessage)
        + MonitoringNotices(old(isMonitoring)) + GroupsLoadedNotices(old(isGroupsLoaded))
    {
      SetStatusMessage("Disconnected");
      SetIsMonitoring(false);
      SetIsGroupsLoaded(false);
      groups := [];
    }

    /** The user name arrived; it shows in the status line only while
        connected. */
    method OnUserNameReceived(userName: string)
      modifies this`loggedInUserName, this`statusMessage, this`changed
      ensures loggedInUserName == userName
      ensures isConnected ==> statusMessage == "Connected as " + userName
      ensures !isConnected ==> statusMessage == old(statusMessage)
      ensures changed == old(changed) + Notice("StatusMessage", old(statusMessage) != statusMessage)
    {
      loggedInUserName := userName;
      if isConnected {
        SetStatusMessage("Connected as " + userName);
      }
    }

    /** A new group list replaces the old one entry by entry. */
    method OnGroupsUpdated(received: seq<WhatsGroup>)
      modifies this`groups, this`isGroupsLoaded, this`statusMessage, this`progressVisible, this`dropDownOpen, this`changed
      ensures groups == received
      ensures isGroupsLoaded <==> |received| > 0
      ensures statusMessage == LoadedGroups(|received|)
      ensures !progressVisible
      ensures dropDownOpen == (old(dropDownOpen) || |received| > 0)
      ensures changed == old(changed) + GroupsLoadedNotices(old(isGroupsLoaded) != isGroupsLoaded)
        + Notice("StatusMessage", old(statusMessage) != statusMessage)
    {
      groups := [];
      var i := 0;
      while i < |received|
        invariant 0 <= i <= |received|
        invariant groups == received[..i]
        invariant isGroupsLoaded == old(isGroupsLoaded) && statusMessage == old(statusMessage)
        invariant dropDownOpen == old(dropDownOpen) && changed == old(changed)
      {
        groups := groups + [received[i]];
        i := i + 1;
      }
      SetIsGroupsLoaded(|received| > 0);
      SetStatusMessage(LoadedGroups(|received|));
      progressVisible := false;
      if |received| > 0 {
        dropDownOpen := true;
      }
    }

    /** The bridge reported whether monitoring runs. */
    method OnMonitoringStatusChanged(monitoring: bool)
      modifies this`isMonitoring, this`statusMessage, this`changed
      ensures isMonitoring == monitoring
      ensures statusMessage == (if monitoring then "Monitoring active" else "Monitoring stopped")
      ensures changed == old(changed) + MonitoringNotices(old(isMonitoring) != monitoring)
        + Notice("StatusMessage", old(statusMessage) != statusMessage)
    {
      SetIsMonitoring(monitoring);
      SetStatusMessage(if monitoring then "Monitoring active" else "Monitoring stopped");
    }

    /** A QR code arrived; `renderError` is the message of a failed
        rendering. */
    method OnQrCodeReceived(qrCode: string, renderError: Option<string>)
      modifies this`qrVisible, this`statusMessage, this`changed
      ensures renderError.None? ==> qrVisible && statusMessage == "QR code displayed - scan with your phone"
      ensures renderError.Some? ==>
        qrVisible == old(qrVisible) && statusMessage == "Failed to generate QR code: " + renderError.value
      ensures changed == old(changed) + Notice("StatusMessage", old(statusMessage) != statusMessage)
    {
      if renderError.None? {
        qrVisible := true;
        SetStatusMessage("QR code displayed - scan with your phone");
      } else {
        SetStatusMessage("Failed to generate QR code: " + renderError.value);
      }
    }

    /** The user dismissed the QR overlay. */
    method CancelQr()
      modifies this`qrVisible, this`connectEnabled, this`statusMessage, this`changed
      ensures !qrVisible && connectEnabled && statusMessage == "QR code scan cancelled"
      ensures changed == old(changed) + Notice("StatusMessage", old(statusMessage) != statusMessage)
    {
      qrVisible := false;
      connectEnabled := true;
      SetStatusMessage("QR code scan cancelled");
    }

    /** Saves a received file under the first name not yet taken in the
        folder and builds its list entry. The file is written before the
        entry is built, so a timestamp `DateTime` cannot hold leaves a
        written file and no entry; every other failure writes nothing. */
    method DownloadMediaAsync(m: MediaMessage, env: SaveEnv) returns (item: MediaItem?, written: Option<string>)
      modifies this`files
      ensures written.None? <==> !env.base64Ok || !env.writeOk
      ensures files == old(files) + (if written.Some? then {written.value} else {})
      ensures written.Some? ==> Clean(written.value) && !Taken(old(files), written.value)
      ensures written.Some? ==> Saved(old(files), m, env, written.value)
      ensures item != null <==> written.Some? && FromUnixTimeSeconds(m.timestamp).Some?
      ensures item != null ==> fresh(item) && Entry(item, m, Combine(downloadFolder, written.value))
      ensures item != null ==> item.fileName == written.value
    {
      item, written := null, None;
      if !env.base64Ok {
        return;
      }
      var extension := GetFileExtension(m.mediaType);
      var fileName := GetSafeFileName(m.filename, extension, env.stamp);
      var chosen, collisions := UniqueFileName(fileName, extension, files);
      var filePath := Combine(downloadFolder, chosen);
      if !env.writeOk {
        return;
      }
      files := files + {chosen};
      written := Some(chosen);
      AttemptClean(fileName, extension, collisions);
      var when := FromUnixTimeSeconds(m.timestamp);
      if when.None? {
        return;
      }
      CleanHasNoSeparator(chosen);
      FileNameOfCombine(downloadFolder, chosen);
      item := Create(GetFileName(filePath), filePath, m.mediaType, m.size, when.value, m.senderName, extension);
    }

    /** A media message arrived: its file is saved and, when that succeeds,
        appended to the media list. */
    method OnMediaMessageReceived(m: MediaMessage, env: SaveEnv) returns (item: MediaItem?, written: Option<string>)
      modifies this`files, this`mediaItems, this`statusMessage, this`changed
      ensures files == old(files) + (if written.Some? then {written.value} else {})
      ensures written.Some? ==> Clean(written.value) && Saved(old(files), m, env, written.value)
      ensures item != null <==> written.Some? && FromUnixTimeSeconds(m.timestamp).Some?
      ensures item != null ==> fresh(item) && Entry(item, m, Combine(downloadFolder, written.value))
      ensures item != null ==> mediaItems == old(mediaItems) + [item] && statusMessage == "Downloaded: " + written.value
      ensures item == null ==> mediaItems == old(mediaItems) && statusMessage == "Downloading media..."
    {
      SetStatusMessage("Downloading media...");
      item, written := DownloadMediaAsync(m, env);
      if item != null {
        mediaItems := mediaItems + [item];
        SetStatusMessage("Downloaded: " + item.fileName);
      }
    }
  }

  /** The notices of the `IsConnected` setter. */
  function ConnectedNotices(changes: bool): seq<string> {
    if changes then ["IsConnected", "ConnectionStatus", "IsGroupsLoadedAndNotMonitoring"] else []
  }

  /** The notices of the `IsMonitoring` setter. */
  function MonitoringNotices(changes: bool): seq<string> {
    if changes then ["IsMonitoring", "IsGroupsLoadedAndNotMonitoring"] else []
  }

  /** The notices of the `IsGroupsLoaded` setter. */
  function GroupsLoadedNotices(changes: bool): seq<string> {
    if changes then ["IsGroupsLoaded", "IsGroupsLoadedAndNotMonitoring"] else []
  }

  /** `name` is the first attempt for `m` not taken among `files`. */
  ghost predicate Saved(files: set<string>, m: MediaMessage, env: SaveEnv, name: string) {
    var extension := GetFileExtension(m.mediaType);
    var safe := GetSafeFileName(m.filename, extension, env.stamp);
    && !Taken(files, name)
    && exists k: nat :: name == Attempt(safe, extension, k)
         && forall j :: 0 <= j < k ==> Taken(files, Attempt(safe, extension, j))
  }

  /** The list entry built for `m` saved at `filePath`. */
  ghost predicate Entry(item: MediaItem, m: MediaMessage, filePath: string)
    reads item
  {
    && item.filePath == filePath && item.fileName == GetFileName(filePath)
    && item.mediaType == m.mediaType && item.fileSize == m.size
    && Some(item.timestamp) == FromUnixTimeSeconds(m.timestamp)
    && item.senderName == m.senderName && item.extension == GetFileExtension(m.mediaType)
    && (m.mediaType != "" ==> item.FlagsMatch())
  }

  /** `ConnectionStatus` for a connection flag. */
  function ConnectionStatusOf(connected: bool): (r: string)
    ensures r == "Connected" <==> connected
    ensures r == "Disconnected" <==> !connected
  {
    if connected then "Connected" else "Disconnected"
  }

  /** The value of `IsGroupsLoadedAndNotMonitoring` for given flags. */
  predicate LoadedAndNotMonitoring(loaded: bool, monitoring: bool) {
    loaded && !monitoring
  }

  /** Whatever a handler changes among the two derived properties, it
      announces: the notices of the three flag setters, run in any
      combination, name every derived property whose value moved. */
  lemma DerivedChangesAnnounced(wasConnected: bool, wasMonitoring: bool, wasLoaded: bool,
                                connected: bool, monitoring: bool, loaded: bool)
    ensures var notices := ConnectedNotices(wasConnected != connected)
      + MonitoringNotices(wasMonitoring != monitoring) + GroupsLoadedNotices(wasLoaded != loaded);
      && (ConnectionStatusOf(wasConnected) != ConnectionStatusOf(connected) ==> "ConnectionStatus" in notices)
      && (LoadedAndNotMonitoring(wasLoaded, wasMonitoring) != LoadedAndNotMonitoring(loaded, monitoring)
          ==> "IsGroupsLoadedAndNotMonitoring" in notices)
  {
  }

  /** The event handler the window attaches to each bridge event. */
  method Handle(w: MainWindow, e: B.Event, env: SaveEnv)
    modifies w, w.service`stdin
    ensures e.ConnectionStatusChanged? ==> w.isConnected == e.connected
    ensures e.MonitoringStatusChanged? ==> w.isMonitoring == e.monitoring
    ensures e.GroupsUpdated? ==> w.groups == e.groups
    ensures e.UserNameReceived? ==> w.loggedInUserName == e.name
    ensures !e.ConnectionStatusChanged? ==> w.isConnected == old(w.isConnected)
  {
    match e
    case QrCodeReceived(qr) => w.OnQrCodeReceived(qr, None);
    case ConnectionStatusChanged(c) => w.OnConnectionStatusChanged(c);
    case UserNameReceived(n) => w.OnUserNameReceived(n);
    case GroupsUpdated(gs) => w.OnGroupsUpdated(gs);
    case MediaMessageReceived(m) => var _, _ := w.OnMediaMessageReceived(m, env);
    case MonitoringStatusChanged(on) => w.OnMonitoringStatusChanged(on);
  }

  /** The window handling the bridge's events in the order they were raised
      shows the connection state of the last one that announced it: the
      same value the bridge's own flag holds after raising them. */
  method HandleAll(w: MainWindow, es: seq<B.Event>, env: SaveEnv)
    modifies w, w.service`stdin
    ensures w.isConnected == B.LastConnected(es, old(w.isConnected))
  {
    for k := 0 to |es|
      invariant w.isConnected == B.LastConnected(es[..k], old(w.isConnected))
    {
      Handle(w, es[k], env);
      assert es[..k + 1][..k] == es[..k];
    }
    assert es[..|es|] == es;
  }
}

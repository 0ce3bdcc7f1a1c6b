/**
 * The account page: the tab kept in step with the URL's `tab` parameter, the
 * profile form and the change-password form with its gating. Each request
 * handler is split at its `await` into a Begin step (up to the request) and a
 * Settle step (the reply, or the exception, and the `finally`).
 */
module Profile {
  import opened Common

  datatype Tab = ProfileTab | SecurityTab | OrdersTab

  /** The name a tab has in the URL. */
  function TabName(t: Tab): string {
    match t
    case ProfileTab => "profile"
    case SecurityTab => "security"
    case OrdersTab => "orders"
  }

  /** `['profile', 'security', 'orders'].includes(s)`, giving the tab so named. */
  function ParseTab(s: string): (r: Option<Tab>)
    ensures r.Some? <==> s in {"profile", "security", "orders"}
  {
    if s == "profile" then Some(ProfileTab)
    else if s == "security" then Some(SecurityTab)
    else if s == "orders" then Some(OrdersTab)
    else None
  }

  /** Tab names and tabs correspond one to one. */
  lemma TabNameRoundTrip(t: Tab, s: string)
    ensures ParseTab(TabName(t)) == Some(t)
    ensures ParseTab(s) == Some(t) ==> s == TabName(t)
  {
  }

  /** The URL effect: a `tab` parameter replaces the active tab only when it names one of the three tabs. */
  function TabFromUrl(current: Tab, param: Option<string>): (t: Tab)
    ensures param.Some? && param.value in {"profile", "security", "orders"} ==> TabName(t) == param.value
    ensures !(param.Some? && param.value in {"profile", "security", "orders"}) ==> t == current
  {
    if param.Some? && param.value != "" && ParseTab(param.value).Some? then ParseTab(param.value).value else current
  }

  /** A tab put into the URL by `switchTab` is read back as the same tab. */
  lemma SwitchedTabSurvivesUrlSync(current: Tab, t: Tab)
    ensures TabFromUrl(current, Some(TabName(t))) == t
  {
    TabNameRoundTrip(t, TabName(t));
  }

  /** The signed-in user as the auth context holds it; every field may be missing. */
  datatype User = User(name: Option<string>, email: Option<string>, phone: Option<string>, address: Option<string>)

  datatype ProfileData = ProfileData(name: string, email: string, phone: string, address: string)

  datatype PasswordData = PasswordData(currentPassword: string, newPassword: string, confirmPassword: string)

  const EmptyPasswords := PasswordData("", "", "")

  /** `x || ''` for an optional string. */
  function OrEmpty(s: Option<string>): string {
    if s.Some? then s.value else ""
  }

  /** The profile form starts from the user's fields, each missing one as ''. */
  function InitialProfile(u: User): (p: ProfileData)
    ensures p.name == (if u.name.Some? then u.name.value else "")
    ensures p.email == (if u.email.Some? then u.email.value else "")
    ensures p.phone == (if u.phone.Some? then u.phone.value else "")
    ensures p.address == (if u.address.Some? then u.address.value else "")
  {
    ProfileData(OrEmpty(u.name), OrEmpty(u.email), OrEmpty(u.phone), OrEmpty(u.address))
  }

  /** Where the password form stops: the two checks, in order, or the request that is sent. */
  datatype PasswordCheck = Mismatch | TooWeak | Sent(currentPassword: string, newPassword: string)

  /**
   * The checks before the password request: confirmation first, then strength
   * (`isStrong` stands for the validator the page imports); the request carries
   * the current and new passwords.
   */
  function PasswordGate(data: PasswordData, isStrong: string -> bool): (r: PasswordCheck)
    ensures r == Mismatch <==> data.newPassword != data.confirmPassword
    ensures r == TooWeak <==> data.newPassword == data.confirmPassword && !isStrong(data.newPassword)
    ensures r.Sent? <==> data.newPassword == data.confirmPassword && isStrong(data.newPassword)
    ensures r.Sent? ==> r.currentPassword == data.currentPassword && r.newPassword == data.newPassword
  {
    if data.newPassword != data.confirmPassword then Mismatch
    else if !isStrong(data.newPassword) then TooWeak
    else Sent(data.currentPassword, data.newPassword)
  }

  /** A mismatched confirmation is reported whatever the strength check would say. */
  lemma MismatchBeforeStrength(data: PasswordData, isStrong: string -> bool, isStrong': string -> bool)
    requires data.newPassword != data.confirmPassword
    ensures PasswordGate(data, isStrong) == PasswordGate(data, isStrong') == Mismatch
  {
  }

  /** What an auth-service request came back with: a reply, or an exception. */
  datatype ServiceReply = Replied(success: bool, user: Option<User>, message: Option<string>) | Threw

  /** The stored user is replaced only by a successful reply that carries a user. */
  function ProfileUpdateAccepted(reply: ServiceReply): (accepted: bool)
    ensures accepted ==> reply.Replied? && reply.success && reply.user.Some?
    ensures reply.Replied? && reply.success && reply.user.Some? ==> accepted
  {
    match reply
    case Replied(success, user, _) => success && user.Some?
    case Threw => false
  }

  /** A toast the page shows. */
  datatype Toast = SuccessToast(text: string) | ErrorToast(message: Option<string>)

  datatype ProfileField = NameField | PhoneField | AddressField

  datatype PasswordField = CurrentField | NewField | ConfirmField

  /** The page component's state, with the URL parameter and the stored user beside it. */
  class Page {
    var urlTab: Option<string>
    var storedUser: User
    var activeTab: Tab
    var isLoading: bool
    var profileData: ProfileData
    var passwordData: PasswordData

    constructor (user: User, urlTab: Option<string>)
      ensures this.urlTab == urlTab && storedUser == user
      ensures activeTab == ProfileTab && !isLoading
      ensures profileData == InitialProfile(user)
      ensures passwordData == EmptyPasswords
    {
      this.urlTab := urlTab;
      storedUser := user;
      activeTab := ProfileTab;
      isLoading := false;
      profileData := InitialProfile(user);
      passwordData := EmptyPasswords;
    }

    /** The effect that runs when the URL's `tab` changes. */
    method SyncTabFromUrl()
      modifies this`activeTab
      ensures activeTab == TabFromUrl(old(activeTab), urlTab)
    {
      if urlTab.Some? && urlTab.value != "" {
        var t := ParseTab(urlTab.value);
        if t.Some? {
          activeTab := t.value;
        }
      }
    }

    /** `switchTab(t)`: the active tab and the URL parameter both become `t`. */
    method SwitchTab(t: Tab)
      modifies this`activeTab, this`urlTab
      ensures activeTab == t && urlTab == Some(TabName(t))
      ensures TabFromUrl(activeTab, urlTab) == activeTab
    {
      activeTab := t;
      urlTab := Some(TabName(t));
      SwitchedTabSurvivesUrlSync(t, t);
    }

    /** Typing in one of the editable profile inputs. */
    method EditProfile(field: ProfileField, value: string)
      modifies this`profileData
      ensures profileData == match field
        case NameField => old(profileData).(name := value)
        case PhoneField => old(profileData).(phone := value)
        case AddressField => old(profileData).(address := value)
    {
      match field
      case NameField => profileData := profileData.(name := value);
      case PhoneField => profileData := profileData.(phone := value);
      case AddressField => profileData := profileData.(address := value);
    }

    /** Typing in one of the password inputs. */
    method EditPassword(field: PasswordField, value: string)
      modifies this`passwordData
      ensures passwordData == match field
        case CurrentField => old(passwordData).(currentPassword := value)
        case NewField => old(passwordData).(newPassword := value)
        case ConfirmField => old(passwordData).(confirmPassword := value)
    {
      match field
      case CurrentField => passwordData := passwordData.(currentPassword := value);
      case NewField => passwordData := passwordData.(newPassword := value);
      case ConfirmField => passwordData := passwordData.(confirmPassword := value);
    }

    /** `handleProfileUpdate` up to its request: loading is on and the profile data is sent. */
    method BeginProfileUpdate() returns (sent: ProfileData)
      modifies this`isLoading
      ensures isLoading && sent == profileData
    {
      isLoading := true;
      sent := profileData;
    }

    /** `handleProfileUpdate` after its request: the user is updated only on an accepted reply; loading is off. */
    method SettleProfileUpdate(reply: ServiceReply) returns (toast: Toast)
      modifies this`isLoading, this`storedUser
      ensures !isLoading
      ensures storedUser == if ProfileUpdateAccepted(reply) then reply.user.value else old(storedUser)
      ensures ProfileUpdateAccepted(reply) ==> toast == SuccessToast("Profile updated")
      ensures reply.Replied? && !ProfileUpdateAccepted(reply) ==> toast == ErrorToast(reply.message)
      ensures reply.Threw? ==> toast == ErrorToast(Some("Failed to update profile"))
    {
      match reply {
      case Replied(success, user, message) =>
        if success && user.Some? {
          storedUser := user.value;
          toast := SuccessToast("Profile updated");
        } else {
          toast := ErrorToast(message);
        }
      case Threw =>
        toast := ErrorToast(Some("Failed to update profile"));
      }
      isLoading := false;
    }

    /**
     * `handlePasswordChange` up to its request: a mismatch or a weak password
     * stops it with no request and loading untouched; otherwise loading is on
     * and the current and new passwords are sent.
     */
    method BeginPasswordChange(isStrong: string -> bool) returns (check: PasswordCheck)
      modifies this`isLoading
      ensures check == PasswordGate(passwordData, isStrong)
      ensures check.Sent? ==> isLoading
      ensures !check.Sent? ==> isLoading == old(isLoading)
    {
      if passwordData.newPassword != passwordData.confirmPassword {
        return Mismatch;
      }
      if !isStrong(passwordData.newPassword) {
        return TooWeak;
      }
      isLoading := true;
      check := Sent(passwordData.currentPassword, passwordData.newPassword);
    }

    /** `handlePasswordChange` after its request: the fields are cleared only on success; loading is off. */
    method SettlePasswordChange(reply: ServiceReply) returns (toast: Toast)
      modifies this`isLoading, this`passwordData
      ensures !isLoading
      ensures passwordData == if reply.Replied? && reply.success then EmptyPasswords else old(passwordData)
      ensures reply.Replied? && reply.success ==> toast == SuccessToast("Password updated")
      ensures reply.Replied? && !reply.success ==> toast == ErrorToast(reply.message)
      ensures reply.Threw? ==> toast == ErrorToast(Some("Failed to update password"))
    {
      match reply {
      case Replied(success, _, message) =>
        if success {
          passwordData := EmptyPasswords;
          toast := SuccessToast("Password updated");
        } else {
          toast := ErrorToast(message);
        }
      case Threw =>
        toast := ErrorToast(Some("Failed to update password"));
      }
      isLoading := false;
    }

    /**
     * The whole `handlePasswordChange`: the service is called, with the
     * current and new password, only when both checks pass; loading is on
     * while it is awaited and off once it settles, the fields are cleared
     * only by a successful reply, and the toast reports the outcome.
     */
    method HandlePasswordChange(isStrong: string -> bool, reply: ServiceReply) returns (check: PasswordCheck, toast: Toast)
      modifies this`isLoading, this`passwordData
      ensures check == PasswordGate(old(passwordData), isStrong)
      ensures !check.Sent? ==> isLoading == old(isLoading) && passwordData == old(passwordData)
      ensures !check.Sent? ==> toast == ErrorToast(Some(
        if old(passwordData).newPassword != old(passwordData).confirmPassword then "Passwords do not match" else "Password too weak"))
      ensures check.Sent? ==> !isLoading
      ensures check.Sent? ==> passwordData == if reply.Replied? && reply.success then EmptyPasswords else old(passwordData)
      ensures check.Sent? && reply.Replied? && reply.success ==> toast == SuccessToast("Password updated")
      ensures check.Sent? && reply.Replied? && !reply.success ==> toast == ErrorToast(reply.message)
      ensures check.Sent? && reply.Threw? ==> toast == ErrorToast(Some("Failed to update password"))
    {
      check := BeginPasswordChange(isStrong);
      match check
      case Mismatch =>
        toast := ErrorToast(Some("Passwords do not match"));
      case TooWeak =>
        toast := ErrorToast(Some("Password too weak"));
      case Sent(_, _) =>
        assert isLoading;
        toast := SettlePasswordChange(reply);
    }
  }
}

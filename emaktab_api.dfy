/**
 * The eMaktab portal client: the login form it posts and the way it reads
 * the portal's answer. The HTTP round trip itself is a parameter, `portal`,
 * that maps the posted form to the response the portal gives back.
 */
module EMaktabApi {
  import opened Wrappers

  /** The captcha image the user is shown. */
  const CaptchaImageUrl := "https://login.emaktab.uz/captcha/image"

  /** The word whose presence, in any casing, marks a captcha page. */
  const CaptchaWord := "captcha"

  type Form = map<string, string>
  type Cookies = map<string, string>

  /** An `EMaktabAPI` object: the login and password it was constructed with. */
  datatype Client = Client(login: string, password: string)

  /** What the portal answers to the POST: body text, status code, and the
    * cookie jar of the session afterwards. */
  datatype Response = Response(text: string, statusCode: int, cookies: Cookies)

  /** The tagged result of `login_attempt`: exactly one of three statuses. */
  datatype LoginResult =
    | Captcha(url: string)
    | Success(cookies: Cookies)
    | Error

  /** Python truthiness of the optional captcha answer: not None and not empty. */
  predicate Truthy(answer: Option<string>): (b: bool)
    ensures b ==> answer.Some?
    ensures answer == Some("") ==> !b
  {
    answer.Some? && answer.value != ""
  }

  /** The form posted to the portal: always the client's login and password,
    * and the captcha answer only when one is given. */
  function FormData(api: Client, captchaAnswer: Option<string>): (data: Form)
    ensures "login" in data && data["login"] == api.login
    ensures "password" in data && data["password"] == api.password
    ensures "captchaAnswer" in data <==> Truthy(captchaAnswer)
    ensures "captchaAnswer" in data ==> data["captchaAnswer"] == captchaAnswer.value
    ensures data.Keys <= {"login", "password", "captchaAnswer"}
  {
    var base := map["login" := api.login, "password" := api.password];
    if Truthy(captchaAnswer) then base["captchaAnswer" := captchaAnswer.value] else base
  }

  /** ASCII lower-casing of one character. */
  function LowerChar(c: char): char {
    if 'A' <= c <= 'Z' then (c as int + 32) as char else c
  }

  /** `str.lower()`, character by character: no upper-case ASCII letter is
    * left, and every other character stays where it was. */
  function Lower(s: string): (r: string)
    ensures |r| == |s|
    ensures forall i :: 0 <= i < |r| ==> !('A' <= r[i] <= 'Z')
    ensures forall i :: 0 <= i < |s| && !('A' <= s[i] <= 'Z') ==> r[i] == s[i]
  {
    seq(|s|, i requires 0 <= i < |s| => LowerChar(s[i]))
  }

  /** Python's substring test `t in s`, by scanning the start positions of `s`. */
  predicate Contains(s: string, t: string): (b: bool)
    ensures b ==> |t| <= |s|
    ensures t == [] ==> b
    decreases |s|
  {
    |t| <= |s| && (s[..|t|] == t || Contains(s[1..], t))
  }

  /** `t` sits in `s` at position `i`. */
  predicate OccursAt(s: string, t: string, i: int) {
    0 <= i && i + |t| <= |s| && s[i..i + |t|] == t
  }

  /** Some casing of `w` sits in `s` at position `i`. */
  predicate OccursIgnoringCaseAt(s: string, w: string, i: int) {
    0 <= i && i + |w| <= |s| && Lower(s[i..i + |w|]) == w
  }

  /** The scan finds `t` exactly when `t` occurs somewhere in `s`. */
  lemma {:induction false} ContainsIffOccurs(s: string, t: string)
    ensures Contains(s, t) <==> exists i :: OccursAt(s, t, i)
    decreases |s|
  {
    if |t| <= |s| {
      if s[..|t|] == t {
        assert OccursAt(s, t, 0);
      } else {
        ContainsIffOccurs(s[1..], t);
        if Contains(s[1..], t) {
          var i :| OccursAt(s[1..], t, i);
          assert s[i + 1..i + 1 + |t|] == s[1..][i..i + |t|];
          assert OccursAt(s, t, i + 1);
        } else {
          forall i | 1 <= i && i + |t| <= |s|
            ensures !OccursAt(s, t, i)
          {
            assert !OccursAt(s[1..], t, i - 1);
            assert s[1..][i - 1..i - 1 + |t|] == s[i..i + |t|];
          }
        }
      }
    }
  }

  /** Lower-casing commutes with taking a slice. */
  lemma LowerSlice(s: string, i: int, j: int)
    requires 0 <= i <= j <= |s|
    ensures Lower(s)[i..j] == Lower(s[i..j])
  {
  }

  /** The ordered if-chain of `login_attempt` on the portal's response. */
  function Classify(response: Response): (r: LoginResult)
    ensures r.Captcha? ==> r.url == CaptchaImageUrl
    ensures r.Success? ==> r.cookies == response.cookies && response.statusCode == 200
  {
    if Contains(Lower(response.text), CaptchaWord) then Captcha(CaptchaImageUrl)
    else if response.statusCode == 200 then Success(response.cookies)
    else Error
  }

  /** The word "captcha" in the body, in any casing, means a captcha page. */
  ghost predicate MentionsCaptcha(text: string) {
    exists i :: OccursIgnoringCaseAt(text, CaptchaWord, i)
  }

  /**
   * The classification, stated against word occurrence in the original body:
   * a captcha page whatever the status code; otherwise success exactly on
   * status 200, carrying the session's cookies; otherwise an error.
   */
  lemma ClassifyCases(response: Response)
    ensures Classify(response) == Captcha(CaptchaImageUrl) <==> MentionsCaptcha(response.text)
    ensures Classify(response) == Success(response.cookies) <==>
              !MentionsCaptcha(response.text) && response.statusCode == 200
    ensures Classify(response) == Error <==>
              !MentionsCaptcha(response.text) && response.statusCode != 200
  {
    var text := response.text;
    ContainsIffOccurs(Lower(text), CaptchaWord);
    if MentionsCaptcha(text) {
      var i :| OccursIgnoringCaseAt(text, CaptchaWord, i);
      LowerSlice(text, i, i + |CaptchaWord|);
      assert OccursAt(Lower(text), CaptchaWord, i);
    }
    if Contains(Lower(text), CaptchaWord) {
      var i :| OccursAt(Lower(text), CaptchaWord, i);
      LowerSlice(text, i, i + |CaptchaWord|);
      assert OccursIgnoringCaseAt(text, CaptchaWord, i);
    }
  }

  /**
   * `login_attempt`: builds the form in place, posts it, and classifies the
   * response. Returns the form that was posted together with the result.
   */
  method LoginAttempt(api: Client, captchaAnswer: Option<string>, portal: Form -> Response)
    returns (data: Form, result: LoginResult)
    ensures data == FormData(api, captchaAnswer)
    ensures result == Classify(portal(data))
  {
    data := map["login" := api.login, "password" := api.password];
    if Truthy(captchaAnswer) {
      data := data["captchaAnswer" := captchaAnswer.value];
    }
    var response := portal(data);
    result := Classify(response);
  }
}

/** The two trading directions. The bot compares alert sides against the
    constants LONG and SHORT of app/bot/constants.js (not part of this model);
    the alert e-mail names them "long" and "short". */
module Constants {

  datatype Side = Long | Short
}
